/**
  Workflows at rest: exactly when replaying a request to cancel a sub-workflow arrives at the live
  state, and that this depends on the history only, not on the executor.
 */
module Resting {
  import opened Basics
  import opened History
  import opened Commands
  import opened Execution
  import opened Similarity
  import opened Stepping
  import opened Tidiness
  import opened Determinism

  // ---------- continuing a workflow only adds commands ----------

  /** `b` has all commands of `a`, in whatever state. */
  predicate Extends(a: Core, b: Core) {
    |a.commands| <= |b.commands| &&
    forall i :: 0 <= i < |a.commands| ==>
      b.commands[i].id == a.commands[i].id && b.commands[i].action == a.commands[i].action
  }

  lemma {:induction false} OperateExtends(core: Core, ops: seq<Operation>)
    ensures Extends(core, OperateAll(core, ops))
    decreases |ops|
  {
    if ops != [] {
      OperateExtends(Operate(core, ops[0]), ops[1..]);
    }
  }

  lemma ResumeExtends(p: Program, core: Core, stimulus: Stimulus)
    ensures var r := Resume(p, core, stimulus); r.Ok? ==> Extends(core, r.core)
  {
    if core.workflow.Some? {
      var turn := p.deliver(core.workflow.value, stimulus, core.Look());
      OperateExtends(core.(workflow := Some(turn.coroutines)), turn.operations);
    }
  }

  // ---------- replaying other decisions hides no difference ----------

  /** Replaying an event that is not a request leads different states to different states. */
  lemma StepBack(p: Program, a: Core, b: Core, c: Command, now: Time, source: nat, last: int)
    requires a.Find(c.id) == Some(c) && TidyCommand(c, c.id in a.pendingFutures) && !Requests(c)
    requires Tidy(b) && Extends(a, b) && a.historyLength == b.historyLength
    requires
      var es := Number(c.Execute(now, source).events, last);
      Steps(p, a, es).Ok? && Steps(p, b, es).Ok?
    ensures
      var es := Number(c.Execute(now, source).events, last);
      var f, g := Steps(p, a, es).core, Steps(p, b, es).core;
      Tidy(g) && Extends(f, g) && f.historyLength == g.historyLength && (f == g ==> a == b)
  {
    hide Resume;
    var es := c.Execute(now, source).events;
    if c.Actionable() {
      var e := es[0].(sequenceID := last + 1);
      assert Number(es, last) == [e];
      StepsOne(p, a, e);
      StepsOne(p, b, e);
      var d := b.commands[c.id - 1];
      TidyFind(b, c.id);
      EventBack(p, a.(historyLength := last + 1), b.(historyLength := last + 1), c, d, e, now, source);
    } else {
      assert Number(es, last) == [];
    }
  }

  lemma EventBack(p: Program, a: Core, b: Core, c: Command, d: Command, e: Event, now: Time, source: nat)
    requires a.Find(c.id) == Some(c) && b.Find(c.id) == Some(d) && d.action == c.action
    requires TidyCommand(c, c.id in a.pendingFutures) && !Requests(c) && c.Actionable()
    requires Tidy(b) && Extends(a, b) && a.historyLength == b.historyLength
    requires e.attributes == c.Execute(now, source).events[0].attributes && e.scheduleEventID == c.id
    requires Handle(p, a, e).Ok? && Handle(p, b, e).Ok?
    ensures
      var f, g := Handle(p, a, e).core, Handle(p, b, e).core;
      Tidy(g) && Extends(f, g) && f.historyLength == g.historyLength && (f == g ==> a == b)
  {
    hide Resume, Tidy;
    var f, g := Handle(p, a, e).core, Handle(p, b, e).core;
    TidyIndexed(b);
    if c.state == Pending {
      assert f == a.Put(c.(state := Committed)) && g == b.Put(d.(state := Committed)) && d.state == Pending;
      TidyFind(b, c.id);
      TidyPut(b, d.(state := Committed));
    } else {
      TidyTimerCanceled(p, b, c.id);
      assert f == a.Put(c.(state := Canceled)) && g == b.Put(d.(state := Canceled)) && d.state == CancelPending;
    }
    PutBack(a, b, c, d, f.commands[c.id - 1].state);
  }

  lemma PutBack(a: Core, b: Core, c: Command, d: Command, state: CommandState)
    requires a.Find(c.id) == Some(c) && b.Find(c.id) == Some(d) && d.state == c.state && Extends(a, b)
    ensures
      var f, g := a.Put(c.(state := state)), b.Put(d.(state := state));
      Extends(f, g) && (f == g ==> a == b)
  {
    var f, g := a.Put(c.(state := state)), b.Put(d.(state := state));
    if f == g {
      assert f.commands[c.id - 1] == g.commands[c.id - 1];
      forall i | 0 <= i < |a.commands|
        ensures a.commands[i] == b.commands[i]
      {
        assert f.commands[i] == g.commands[i];
      }
      assert a.commands == b.commands;
    }
  }

  /** The recorded events of the commands after the first `k`, up to the `n`th. */
  function Between(core: Core, k: nat, n: nat, now: Time, source: nat, last: int): seq<Event>
    requires n <= |core.commands|
    decreases n
  {
    if n <= k then []
    else
      Between(core, k, n - 1, now, source, last) +
      Number(core.commands[n - 1].Execute(now, source).events, last + |EventsUpTo(core, n - 1, now, source)|)
  }

  lemma {:induction false} BetweenRest(core: Core, k: nat, n: nat, now: Time, source: nat, last: int)
    requires k <= n <= |core.commands|
    ensures Number(EventsUpTo(core, n, now, source), last) ==
            Number(EventsUpTo(core, k, now, source), last) + Between(core, k, n, now, source, last)
    decreases n
  {
    hide EventsUpTo;
    if k < n {
      var before := EventsUpTo(core, n - 1, now, source);
      BetweenRest(core, k, n - 1, now, source, last);
      EventsStep(core, n, now, source);
      NumberAppend(before, core.commands[n - 1].Execute(now, source).events, last);
    }
  }

  lemma ReachedFinds(core: Core, k: nat, now: Time, source: nat, last: int)
    requires Tidy(core) && 0 < k <= |core.commands|
    ensures
      var c, a := core.commands[k - 1], Reached(core, k - 1, now, source, last);
      a.Find(c.id) == Some(c) && TidyCommand(c, c.id in a.pendingFutures)
  {
    hide EventsUpTo, TidyCommand;
    TidyAt(core, k - 1);
  }

  /** The rest of a checkpoint, if it records no request, leads to the state reached from that state only. */
  lemma {:induction false} RestBack(p: Program, core: Core, k: nat, n: nat, b: Core, now: Time, source: nat, last: int)
    requires Tidy(core) && k <= n <= |core.commands|
    requires forall j :: k <= j < n ==> !Requests(core.commands[j])
    requires Tidy(b) && Extends(Reached(core, k, now, source, last), b)
    requires b.historyLength == Reached(core, k, now, source, last).historyLength
    requires Steps(p, b, Between(core, k, n, now, source, last)).Ok?
    ensures
      var g, r := Steps(p, b, Between(core, k, n, now, source, last)).core, Reached(core, n, now, source, last);
      Tidy(g) && Extends(r, g) && g.historyLength == r.historyLength &&
      (g == r ==> b == Reached(core, k, now, source, last))
    decreases n
  {
    hide Handle, Tidy, Extends, Reached, EventsUpTo, Steps, AtRest, Requests;
    if k == n {
      assert Steps(p, b, []) == Ok(b) by { StepsNone(p, b); }
    } else {
      var c := core.commands[n - 1];
      var own := Number(c.Execute(now, source).events, last + |EventsUpTo(core, n - 1, now, source)|);
      StepsAppend(p, b, Between(core, k, n - 1, now, source, last), own);
      RestBack(p, core, k, n - 1, b, now, source, last);
      ReachedFinds(core, n, now, source, last);
      ReplayReached(p, core, n, now, source, last);
      StepBack(p, Reached(core, n - 1, now, source, last),
               Steps(p, b, Between(core, k, n - 1, now, source, last)).core, c, now, source,
               last + |EventsUpTo(core, n - 1, now, source)|);
    }
  }

  lemma StepsNone(p: Program, core: Core)
    ensures Steps(p, core, []) == Ok(core)
  {
  }

  /** Replaying the request of the `k`th command continues the workflow in the state the command leads to. */
  lemma RequestContinues(p: Program, core: Core, k: nat, now: Time, source: nat, last: int)
    requires Tidy(core) && 0 < k <= |core.commands| && Requests(core.commands[k - 1])
    ensures
      Steps(p, Reached(core, k - 1, now, source, last),
            Number(core.commands[k - 1].Execute(now, source).events, last + |EventsUpTo(core, k - 1, now, source)|)) ==
      Resume(p, Reached(core, k, now, source, last), Continue)
  {
    hide Resume, EventsUpTo, Tidy, Advanced, Steps;
    var c := core.commands[k - 1];
    var before, es := EventsUpTo(core, k - 1, now, source), c.Execute(now, source).events;
    var length := last + |before| + 1;
    var mid := Reached(core, k - 1, now, source, last);
    EventsStep(core, k, now, source);
    AdvanceOne(core, k, if before == [] then core.historyLength else last + |before|, length);
    assert Number(es, last + |before|) == [es[0].(sequenceID := length)];
    StepsOne(p, mid, es[0].(sequenceID := length));
  }

  lemma TidyReached(core: Core, k: nat, now: Time, source: nat, last: int)
    requires Tidy(core) && k <= |core.commands|
    ensures Tidy(Reached(core, k, now, source, last))
  {
    hide EventsUpTo;
    var r := Reached(core, k, now, source, last);
    forall i | 0 <= i < |r.commands|
      ensures r.commands[i].id == i + 1 && TidyCommand(r.commands[i], i + 1 in r.pendingFutures)
    {
      assert TidyCommand(core.commands[i], i + 1 in core.pendingFutures);
      assert r.commands[i] == if i < k then core.commands[i].Executed() else core.commands[i];
    }
  }

  /** Provided the workflow rests at the other requests, replay arrives at the live state iff it does at the last. */
  lemma LastRequest(p: Program, core: Core, k: nat, now: Time, source: nat, last: int)
    requires Tidy(core) && 0 < k <= |core.commands| && Requests(core.commands[k - 1])
    requires Rests(p, core, k - 1, now, source, last)
    requires forall j :: k <= j < |core.commands| ==> !Requests(core.commands[j])
    ensures
      var n := |core.commands|;
      Steps(p, core, Number(EventsUpTo(core, n, now, source), last)) == Ok(Reached(core, n, now, source, last)) <==>
      AtRest(p, Reached(core, k, now, source, last))
  {
    hide Handle, Tidy, Extends, Reached, EventsUpTo, Steps, Resume;
    var n := |core.commands|;
    var whole := Number(EventsUpTo(core, n, now, source), last);
    var before := EventsUpTo(core, k - 1, now, source);
    var own := Number(core.commands[k - 1].Execute(now, source).events, last + |before|);
    if AtRest(p, Reached(core, k, now, source, last)) {
      assert Rests(p, core, n, now, source, last) by { hide AtRest; }
      ReplayCommands(p, core, n, now, source, last);
    }
    if Steps(p, core, whole) == Ok(Reached(core, n, now, source, last)) {
      var r := Reached(core, k, now, source, last);
      BetweenRest(core, k, n, now, source, last);
      ReplayReached(p, core, k, now, source, last);
      ReplayCommands(p, core, k - 1, now, source, last);
      StepsAppend(p, core, Number(before, last), own);
      StepsAppend(p, core, Number(EventsUpTo(core, k, now, source), last), Between(core, k, n, now, source, last));
      RequestContinues(p, core, k, now, source, last);
      TidyReached(core, k, now, source, last);
      TidyResume(p, r, Stimulus.Continue);
      ResumeExtends(p, r, Stimulus.Continue);
      RestBack(p, core, k, n, Resume(p, r, Stimulus.Continue).core, now, source, last);
    }
  }

  // ---------- checkpoints and tasks ----------

  predicate AtMostOneRequest(cs: seq<Command>) {
    forall i, j :: 0 <= i < |cs| && 0 <= j < |cs| && Requests(cs[i]) && Requests(cs[j]) ==> i == j
  }

  lemma OneRequestReplays(p: Program, core: Core, now: Time, source: nat, last: int)
    requires Tidy(core) && AtMostOneRequest(core.commands)
    ensures
      var n := |core.commands|;
      Steps(p, core, Number(EventsUpTo(core, n, now, source), last)) == Ok(Reached(core, n, now, source, last)) <==>
      Rests(p, core, n, now, source, last)
  {
    hide Handle, Tidy, Reached, EventsUpTo, Steps, AtRest, Requests;
    var n := |core.commands|;
    if i :| 0 <= i < n && Requests(core.commands[i]) {
      LastRequest(p, core, i + 1, now, source, last);
    } else {
      ReplayCommands(p, core, n, now, source, last);
    }
  }

  /** The state a checkpoint leaves behind, but for the command that ends the execution. */
  function Left(core: Core, last: int, events: seq<Event>): Core {
    core.(commands := ExecutedAll(core.commands),
          historyLength := if events == [] then core.historyLength else last + |events|)
  }

  lemma AllReached(core: Core, now: Time, source: nat, last: int)
    ensures
      var n, es := |core.commands|, Collect(core.commands, now, source).events;
      EventsUpTo(core, n, now, source) == es && Reached(core, n, now, source, last) == Left(core, last, es)
  {
    var n := |core.commands|;
    assert core.commands[..n] == core.commands;
    assert ExecutedAll(core.commands[..n]) + core.commands[n..] == ExecutedAll(core.commands);
  }

  /**
    With at most one request among its events, replaying a checkpoint arrives at the state after it
    exactly if the workflow rests there. With several, it also does if the workflow rests at all of them.
   */
  lemma CheckpointReplaysIff(p: Program, core: Core, next: Core, now: Time, last: int)
    requires Tidy(core) && Conclude(p, core) == Ok(next)
    ensures
      var es := Collect(next.commands, now, core.source).events;
      var arrives := Steps(p, core, Number(es, last)) == Ok(Left(core, last, es));
      && (Rests(p, core, |core.commands|, now, core.source, last) ==> arrives)
      && (AtMostOneRequest(core.commands) && arrives ==> Rests(p, core, |core.commands|, now, core.source, last))
  {
    hide Handle, Tidy, Conclude, Command.Execute, Rests, ExecutedAll, EventsUpTo, Reached, AtMostOneRequest;
    var n := |core.commands|;
    ConcludeAdds(p, core);
    AllReached(core, now, core.source, last);
    var es := Collect(core.commands, now, core.source).events;
    if Rests(p, core, n, now, core.source, last) {
      ReplayCommands(p, core, n, now, core.source, last);
    }
    if AtMostOneRequest(core.commands) {
      OneRequestReplays(p, core, now, core.source, last);
    }
    if next != core {
      FinalAppended(p, core, next, now, last);
    }
  }

  /** The event that ends an execution changes nothing but the history length. */
  lemma FinalAppended(p: Program, core: Core, next: Core, now: Time, last: int)
    requires |next.commands| == |core.commands| + 1 && next.commands[..|core.commands|] == core.commands
    requires Final(next.commands[|core.commands|]) && next.commands[|core.commands|].state == Pending
    ensures
      var es, all := Collect(core.commands, now, core.source).events, Collect(next.commands, now, core.source).events;
      Steps(p, core, Number(es, last)) == Ok(Left(core, last, es)) <==>
      Steps(p, core, Number(all, last)) == Ok(Left(core, last, all))
  {
    hide Handle, Command.Execute, ExecutedAll;
    var c := next.commands[|core.commands|];
    var es, final := Collect(core.commands, now, core.source).events, c.Execute(now, core.source).events;
    assert Collect(next.commands, now, core.source).events == es + final;
    var before := Steps(p, core, Number(es, last));
    NumberAppend(es, final, last);
    StepsAppend(p, core, Number(es, last), Number(final, last + |es|));
    if before.Ok? {
      FinalIgnored(p, before.core, c, now, core.source, last + |es|);
      StepsFrame(p, core, Number(es, last));
    }
  }

  /**
    If a task records at most one request, replaying what it recorded arrives at the executor's
    state exactly if the workflow rests at that request.
   */
  lemma TaskReplaysIff(p: Program, x: Executor, t: Task, now: Time, source: nat, maxHistorySize: int)
    requires Tidy(x.core) && Settled(p, x.core) && ErrorFree(p, x, t, now, source, maxHistorySize)
    requires AtMostOneRequest(LiveTask(p, x, t, now, source).core.commands)
    requires Work(p, x, false, t, now, source, maxHistorySize).result.state == Active
    ensures
      var w := Work(p, x, false, t, now, source, maxHistorySize);
      Steps(p, x.core.(source := source), w.result.executed) == Ok(w.executor.core) <==>
      Restful(p, x, t, now, source)
  {
    hide Handle, Tidy, Settled, Conclude, Command.Execute, ExecuteFrom, Rests, AtMostOneRequest, Steps, Work;
    var live, next := TaskSteps(p, x, t, now, source, maxHistorySize);
    CheckpointReplaysIff(p, live, next, now, x.lastSequenceID + |ToExecute(t, now, source)|);
    ConcludeAdds(p, live);
    ActiveUnlessFinal(next.commands, now, source);
  }

  // ---------- rest is a matter of the history ----------

  /** Nothing is taken back: no command disappears, no cancel callback is registered again. */
  predicate Onward(a: Core, b: Core) {
    && a.nextScheduleEventID <= b.nextScheduleEventID && |a.commands| <= |b.commands|
    && (forall i :: 0 <= i < |a.commands| ==> (b.commands[i].armed ==> a.commands[i].armed))
  }

  lemma OperateOnward(core: Core, op: Operation)
    ensures Onward(core, Operate(core, op))
    ensures Onward(Operate(core, op), core) ==> Operate(core, op) == core
  {
    if op.CloseDone? && core.Find(op.scheduleEventID).Some? && core.Find(op.scheduleEventID).value.armed {
      assert !Operate(core, op).commands[op.scheduleEventID - 1].armed;
    }
  }

  lemma {:induction false} OperateAllOnward(core: Core, ops: seq<Operation>)
    ensures Onward(core, OperateAll(core, ops))
    decreases |ops|
  {
    hide Operate;
    if ops != [] {
      OperateOnward(core, ops[0]);
      OperateAllOnward(Operate(core, ops[0]), ops[1..]);
    }
  }

  /** Operations without an effect have none on a similar state either. */
  lemma {:induction false} NoEffectSimilar(a: Core, b: Core, ops: seq<Operation>, drawn: bool)
    requires Similar(a, b, drawn) && OperateAll(a, ops) == a
    ensures OperateAll(b, ops) == b
    decreases |ops|
  {
    if ops != [] {
      OperateOnward(a, ops[0]);
      OperateAllOnward(Operate(a, ops[0]), ops[1..]);
      if ops[0].CloseDone? {
        SimilarFind(a, b, ops[0].scheduleEventID, drawn);
      }
      NoEffectSimilar(a, b, ops[1..], drawn);
    }
  }

  lemma AtRestSimilar(p: Program, a: Core, b: Core, drawn: bool)
    requires Similar(a, b, drawn) && AtRest(p, a)
    ensures AtRest(p, b)
  {
    hide Similar, OperateAll;
    SimilarLook(a, b, drawn);
    assert a.workflow == b.workflow by { SimilarWorkflow(a, b, drawn); }
    var turn := p.deliver(a.workflow.value, Stimulus.Continue, a.Look());
    assert a.(workflow := Some(turn.coroutines)) == a;
    NoEffectSimilar(a, b, turn.operations, drawn);
  }

  lemma SimilarWorkflow(a: Core, b: Core, drawn: bool)
    requires Similar(a, b, drawn)
    ensures a.workflow == b.workflow && |a.commands| == |b.commands| && a.historyLength == b.historyLength
    ensures SameCommands(a.commands, b.commands, drawn)
  {
  }

  lemma ReachedSimilar(a: Core, b: Core, k: nat, now: Time, source: nat, last: int)
    requires Similar(a, b, true) && k <= |a.commands|
    ensures |a.commands| == |b.commands|
    ensures Similar(Reached(a, k, now, source, last), Reached(b, k, now, source, last), true)
  {
    SameCollect(a.commands[..k], b.commands[..k], now, source);
    var r, q := Reached(a, k, now, source, last), Reached(b, k, now, source, last);
    forall i | 0 <= i < |r.commands|
      ensures SameCommand(r.commands[i], q.commands[i], true)
    {
      assert SameCommand(a.commands[i], b.commands[i], true);
    }
  }

  lemma RestsSimilar(p: Program, a: Core, b: Core, now: Time, source: nat, last: int)
    requires Similar(a, b, true) && Rests(p, a, |a.commands|, now, source, last)
    ensures Rests(p, b, |b.commands|, now, source, last)
  {
    hide Reached, AtRest;
    forall j | 0 < j <= |b.commands| && Requests(b.commands[j - 1])
      ensures AtRest(p, Reached(b, j, now, source, last))
    {
      assert SameCommand(a.commands[j - 1], b.commands[j - 1], true);
      ReachedSimilar(a, b, j, now, source, last);
      AtRestSimilar(p, Reached(a, j, now, source, last), Reached(b, j, now, source, last), true);
    }
  }

  /** Similar executors rest at the same requests. */
  lemma RestfulSimilar(p: Program, x: Executor, y: Executor, t: Task, now: Time, source: nat)
    requires x.lastSequenceID == y.lastSequenceID
    requires Similar(x.core.(source := source), y.core.(source := source), true)
    requires Restful(p, x, t, now, source)
    ensures Restful(p, y, t, now, source)
  {
    hide Similar, ExecuteFrom, Rests;
    SimilarExecuteFrom(p, x.core.(source := source), y.core.(source := source), x.lastSequenceID,
                       ToExecute(t, now, source), 0);
    if LiveTask(p, x, t, now, source).AllExecuted? {
      RestsSimilar(p, LiveTask(p, x, t, now, source).core, LiveTask(p, y, t, now, source).core, now, source,
                   x.lastSequenceID + |ToExecute(t, now, source)|);
    }
  }

  // ---------- programs that always rest ----------

  /** However long the workflow's coroutines are blocked, continuing them does nothing. */
  ghost predicate Quiet(p: Program) {
    forall s, d, v, w {:trigger p.deliver(p.deliver(s, d, v).coroutines, Continue, w)} ::
      var left := p.deliver(s, d, v).coroutines;
      p.deliver(left, Stimulus.Continue, w) == Turn(left, [], None)
  }

  lemma QuietRests(p: Program, x: Executor, t: Task, now: Time, source: nat)
    requires Quiet(p) && Tidy(x.core) && Settled(p, x.core)
    ensures Restful(p, x, t, now, source)
  {
    hide Quiet, Rests, ExecuteFrom, Handle, Tidy, Settled;
    var live := LiveTask(p, x, t, now, source);
    TidyExceptSource(p, x.core, source);
    LiveTidy(p, x.core.(source := source), x.lastSequenceID, ToExecute(t, now, source), 0);
    if live.AllExecuted? {
      QuietAtRequests(p, live.core, now, source, x.lastSequenceID + |ToExecute(t, now, source)|);
    }
  }

  lemma QuietAtRequests(p: Program, core: Core, now: Time, source: nat, last: int)
    requires Quiet(p) && Tidy(core) && Settled(p, core)
    ensures Rests(p, core, |core.commands|, now, source, last)
  {
    hide EventsUpTo;
    forall j | 0 < j <= |core.commands| && Requests(core.commands[j - 1])
      ensures AtRest(p, Reached(core, j, now, source, last))
    {
      var r := Reached(core, j, now, source, last);
      var s, d, v :| core.workflow.value == p.deliver(s, d, v).coroutines;
      assert p.deliver(p.deliver(s, d, v).coroutines, Stimulus.Continue, r.Look()) == Turn(core.workflow.value, [], None);
    }
  }
}
