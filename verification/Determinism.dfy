/**
  Executor state is a function of recorded history: a run that executed every task live, a
  replay from nothing and a replay of the missing suffix onto a cached executor all agree.
 */
module Determinism {
  import opened Basics
  import opened History
  import opened Commands
  import opened Execution
  import opened Similarity
  import opened Stepping
  import opened Tidiness

  /** Continuing the coroutines does nothing: they are blocked, and stay so. */
  predicate AtRest(p: Program, core: Core) {
    Resume(p, core, Continue) == Ok(core)
  }

  /** Executing the command records the request to cancel a sub-workflow; its handler continues the workflow. */
  predicate Requests(c: Command) {
    c.action.SubWorkflow? && c.state == CancelPending
  }

  /** At task boundaries no command waits to be executed. */
  predicate Boundary(core: Core) {
    forall i :: 0 <= i < |core.commands| ==> !core.commands[i].Actionable()
  }

  predicate Final(c: Command) {
    c.action.Complete? || c.action.ContinueAsNew?
  }

  // ---------- command events replay to what executing the commands did ----------

  /** The first `k` commands executed, the others not yet. */
  function Advanced(core: Core, k: nat, length: int): Core
    requires k <= |core.commands|
  {
    core.(commands := ExecutedAll(core.commands[..k]) + core.commands[k..], historyLength := length)
  }

  lemma NumberAppend(es: seq<Event>, fs: seq<Event>, last: int)
    ensures Number(es + fs, last) == Number(es, last) + Number(fs, last + |es|)
  {
  }

  /**
    Replaying the event of one command has the effect of executing the command: for a request to cancel a
    sub-workflow exactly if the workflow is idle then, for all others always.
   */
  lemma ReplayCommand(p: Program, core: Core, c: Command, now: Time, source: nat, n: int)
    requires core.Find(c.id) == Some(c) && !(Final(c) && c.state == Pending)
    requires TidyCommand(c, c.id in core.pendingFutures)
    ensures
      var es := c.Execute(now, source).events;
      if c.Actionable()
      then
        |es| == 1 &&
        (Handle(p, core, es[0].(sequenceID := n)) == Ok(core.Put(c.Executed())) <==>
         (Requests(c) ==> AtRest(p, core.Put(c.Executed()))))
      else es == [] && c.Executed() == c
  {
    hide Resume;
  }

  lemma AdvanceOne(core: Core, k: nat, length: int, length': int)
    requires Tidy(core) && 0 < k <= |core.commands|
    ensures
      var c := core.commands[k - 1];
      var mid := Advanced(core, k - 1, length);
      && mid.workflow == core.workflow && mid.pendingFutures == core.pendingFutures
      && mid.(historyLength := length').Find(c.id) == Some(c)
      && mid.(historyLength := length').Put(c.Executed()) == Advanced(core, k, length')
      && (c.Executed() == c ==> mid == Advanced(core, k, length))
  {
    var c := core.commands[k - 1];
    var mid := Advanced(core, k - 1, length);
    assert mid.commands[k - 1] == c;
    assert mid.commands[k - 1 := c.Executed()] == Advanced(core, k, length').commands;
    if c.Executed() == c {
      assert mid.commands == Advanced(core, k, length).commands;
    }
  }

  lemma AdvanceNone(p: Program, core: Core, last: int)
    ensures Steps(p, core, Number([], last)) == Ok(core)
    ensures Advanced(core, 0, core.historyLength) == core
  {
    assert ExecutedAll(core.commands[..0]) + core.commands[0..] == core.commands;
  }

  /** The events of the first `k` commands. */
  function EventsUpTo(core: Core, k: nat, now: Time, source: nat): seq<Event>
    requires k <= |core.commands|
  {
    Collect(core.commands[..k], now, source).events
  }

  /** The state in which executing the first `k` commands leaves the workflow. */
  function Reached(core: Core, k: nat, now: Time, source: nat, last: int): Core
    requires k <= |core.commands|
  {
    var es := EventsUpTo(core, k, now, source);
    Advanced(core, k, if es == [] then core.historyLength else last + |es|)
  }

  /** The workflow is idle wherever one of the first `k` commands records a request to cancel a sub-workflow. */
  predicate Rests(p: Program, core: Core, k: nat, now: Time, source: nat, last: int)
    requires k <= |core.commands|
  {
    forall j :: 0 < j <= k && Requests(core.commands[j - 1]) ==> AtRest(p, Reached(core, j, now, source, last))
  }

  /** Replaying the events of the next command, if it has any. */
  lemma ReplayNext(p: Program, core: Core, k: nat, now: Time, source: nat, length: int, last: int)
    requires Tidy(core) && 0 < k <= |core.commands|
    ensures
      var c := core.commands[k - 1];
      var es := c.Execute(now, source).events;
      Steps(p, Advanced(core, k - 1, length), Number(es, last)) ==
      Ok(Advanced(core, k, if es == [] then length else last + |es|)) <==>
      (Requests(c) ==> AtRest(p, Advanced(core, k, last + |es|)))
    ensures Requests(core.commands[k - 1]) ==> core.commands[k - 1].Execute(now, source).events != []
  {
    hide Handle, Command.Execute, Command.Executed, Tidy, Core.Put, Core.Find, Advanced, AtRest;
    var c := core.commands[k - 1];
    var es := c.Execute(now, source).events;
    var mid := Advanced(core, k - 1, length);
    AdvanceOne(core, k, length, last + 1);
    TidyAt(core, k - 1);
    ReplayCommand(p, mid.(historyLength := last + 1), c, now, source, last + 1);
    if c.Actionable() {
      assert Number(es, last) == [es[0].(sequenceID := last + 1)];
      StepsOne(p, mid, es[0].(sequenceID := last + 1));
    } else {
      assert Number(es, last) == [];
    }
  }

  lemma CollectStep(cs: seq<Command>, k: nat, now: Time, source: nat)
    requires 0 < k <= |cs|
    ensures Collect(cs[..k], now, source) == Collect(cs[..k - 1], now, source).Then(cs[k - 1].Execute(now, source))
  {
    hide Command.Execute;
    assert cs[..k][..k - 1] == cs[..k - 1];
  }

  lemma EventsStep(core: Core, k: nat, now: Time, source: nat)
    requires 0 < k <= |core.commands|
    ensures EventsUpTo(core, k, now, source) ==
            EventsUpTo(core, k - 1, now, source) + core.commands[k - 1].Execute(now, source).events
  {
    hide Command.Execute;
    CollectStep(core.commands, k, now, source);
  }

  /** From the state before the command to the state after it. */
  lemma ReplayReached(p: Program, core: Core, k: nat, now: Time, source: nat, last: int)
    requires Tidy(core) && 0 < k <= |core.commands|
    ensures
      var before, own := EventsUpTo(core, k - 1, now, source), core.commands[k - 1].Execute(now, source).events;
      && Number(EventsUpTo(core, k, now, source), last) == Number(before, last) + Number(own, last + |before|)
      && (Steps(p, Reached(core, k - 1, now, source, last), Number(own, last + |before|)) ==
          Ok(Reached(core, k, now, source, last)) <==>
          (Requests(core.commands[k - 1]) ==> AtRest(p, Reached(core, k, now, source, last))))
  {
    hide Handle, Command.Execute, Tidy, Advanced, Steps, AtRest, EventsUpTo;
    var before, own := EventsUpTo(core, k - 1, now, source), core.commands[k - 1].Execute(now, source).events;
    EventsStep(core, k, now, source);
    ReplayNext(p, core, k, now, source, if before == [] then core.historyLength else last + |before|, last + |before|);
    NumberAppend(before, own, last);
  }

  /** Replaying the events of the first `k` commands. */
  lemma {:induction false} ReplayCommands(p: Program, core: Core, k: nat, now: Time, source: nat, last: int)
    requires Tidy(core) && k <= |core.commands| && Rests(p, core, k, now, source, last)
    ensures Steps(p, core, Number(EventsUpTo(core, k, now, source), last)) == Ok(Reached(core, k, now, source, last))
    decreases k
  {
    hide Handle, Tidy, Advanced, Steps, AtRest;
    if k == 0 {
      AdvanceNone(p, core, last);
      assert core.commands[..0] == [] && EventsUpTo(core, 0, now, source) == [];
    } else {
      hide EventsUpTo, Reached;
      var before, own := EventsUpTo(core, k - 1, now, source), core.commands[k - 1].Execute(now, source).events;
      ReplayCommands(p, core, k - 1, now, source, last);
      ReplayReached(p, core, k, now, source, last);
      StepsAppend(p, core, Number(before, last), Number(own, last + |before|));
    }
  }

  /** Replay follows the execution of the commands, one by one, exactly if the workflow rests. */
  lemma ReplayFollowsIff(p: Program, core: Core, n: nat, now: Time, source: nat, last: int)
    requires Tidy(core) && n <= |core.commands|
    ensures
      (forall k {:trigger Reached(core, k, now, source, last)} :: 0 <= k <= n ==>
         Steps(p, core, Number(EventsUpTo(core, k, now, source), last)) == Ok(Reached(core, k, now, source, last))) <==>
      Rests(p, core, n, now, source, last)
  {
    hide Handle, Tidy, Reached, EventsUpTo, Steps, AtRest;
    if Rests(p, core, n, now, source, last) {
      forall k | 0 <= k <= n
        ensures Steps(p, core, Number(EventsUpTo(core, k, now, source), last)) == Ok(Reached(core, k, now, source, last))
      {
        ReplayCommands(p, core, k, now, source, last);
      }
    }
    if forall k {:trigger Reached(core, k, now, source, last)} :: 0 <= k <= n ==>
         Steps(p, core, Number(EventsUpTo(core, k, now, source), last)) == Ok(Reached(core, k, now, source, last)) {
      forall k | 0 < k <= n && Requests(core.commands[k - 1])
        ensures AtRest(p, Reached(core, k, now, source, last))
      {
        var before, own := EventsUpTo(core, k - 1, now, source), core.commands[k - 1].Execute(now, source).events;
        assert Steps(p, core, Number(before, last)) == Ok(Reached(core, k - 1, now, source, last));
        ReplayReached(p, core, k, now, source, last);
        StepsAppend(p, core, Number(before, last), Number(own, last + |before|));
      }
    }
  }

  lemma AllCommandsReplay(p: Program, core: Core, now: Time, source: nat, last: int)
    requires Tidy(core) && Rests(p, core, |core.commands|, now, source, last)
    ensures
      var es := Collect(core.commands, now, source).events;
      Steps(p, core, Number(es, last)) ==
      Ok(core.(commands := ExecutedAll(core.commands),
               historyLength := if es == [] then core.historyLength else last + |es|))
  {
    hide Handle, Tidy, Command.Execute, AtRest, Rests;
    var n := |core.commands|;
    ReplayCommands(p, core, n, now, source, last);
    assert core.commands[..n] == core.commands;
    assert ExecutedAll(core.commands[..n]) + core.commands[n..] == ExecutedAll(core.commands);
  }

  lemma TidyAt(core: Core, i: nat)
    requires Tidy(core) && i < |core.commands|
    ensures core.commands[i].id == i + 1 && TidyCommand(core.commands[i], i + 1 in core.pendingFutures)
  {
  }

  lemma StepsOne(p: Program, core: Core, e: Event)
    ensures Steps(p, core, [e]) == Handle(p, core.(historyLength := e.sequenceID), e)
  {
    hide Handle;
    assert [e][1..] == [];
    var h := Handle(p, core.(historyLength := e.sequenceID), e);
    if h.Ok? {
      assert Steps(p, h.core, []) == Ok(h.core);
    }
  }

  // ---------- one task ----------

  /** The task's result is Active exactly when no final command was waiting. */
  lemma {:induction false} ActiveUnlessFinal(cs: seq<Command>, now: Time, source: nat)
    ensures Collect(cs, now, source).state == Active <==>
            forall i :: 0 <= i < |cs| ==> !(Final(cs[i]) && cs[i].state == Pending)
    decreases |cs|
  {
    if cs != [] {
      ActiveUnlessFinal(cs[..|cs| - 1], now, source);
    }
  }

  /** Executing the new events of a task. */
  function LiveTask(p: Program, x: Executor, t: Task, now: Time, source: nat): Live {
    ExecuteFrom(p, x.core.(source := source), x.lastSequenceID, ToExecute(t, now, source), 0)
  }

  /** The new events ran without error, the workflow left no futures behind, the history limit was not hit. */
  predicate ErrorFree(p: Program, x: Executor, t: Task, now: Time, source: nat, maxHistorySize: int) {
    var live := LiveTask(p, x, t, now, source);
    live.AllExecuted? && Conclude(p, live.core).Ok? && x.lastSequenceID + |ToExecute(t, now, source)| < maxHistorySize
  }

  lemma {:induction false} LiveTidy(p: Program, core: Core, last: int, events: seq<Event>, i: nat)
    requires Tidy(core) && Settled(p, core) && i <= |events|
    ensures var live := ExecuteFrom(p, core, last, events, i);
            live.AllExecuted? ==> Tidy(live.core) && Settled(p, live.core)
  {
    hide Handle, Tidy, Settled;
    LiveIsSteps(p, core, last, events, i);
    TidySteps(p, core, Number(events, last)[i..]);
  }

  lemma ConcludeAdds(p: Program, core: Core)
    requires Conclude(p, core).Ok? && Tidy(core)
    ensures core.workflow.Some?
    ensures
      var next := Conclude(p, core).core;
      SameFrame(core, next) &&
      (next == core ||
       (|next.commands| == |core.commands| + 1 && next.commands[..|core.commands|] == core.commands &&
        core.pendingFutures == map[] &&
        var c := next.commands[|core.commands|];
        Final(c) && c.state == Pending))
  {
  }

  /**
    Replaying the events of a checkpoint from the state before it: succeeds, and unless
    the execution ends, arrives at the state after it.
   */
  lemma CheckpointReplays(p: Program, core: Core, next: Core, now: Time, last: int)
    requires Tidy(core) && Conclude(p, core) == Ok(next)
    requires Rests(p, core, |core.commands|, now, core.source, last)
    ensures
      var r := Collect(next.commands, now, core.source);
      var replayed := Steps(p, core, Number(r.events, last));
      replayed.Ok? && replayed.core.commands == ExecutedAll(core.commands) &&
      replayed.core.pendingFutures == core.pendingFutures && (r.state != Active ==> core.pendingFutures == map[]) &&
      (r.state == Active ==>
         next == core &&
         replayed.core == core.(commands := ExecutedAll(core.commands),
                                historyLength := if r.events == [] then core.historyLength else last + |r.events|))
  {
    hide Handle, Tidy, Conclude, Command.Execute, Rests, ExecutedAll;
    ConcludeAdds(p, core);
    TidyIsOpen(core);
    AllCommandsReplay(p, core, now, core.source, last);
    ActiveUnlessFinal(next.commands, now, core.source);
    if next != core {
      var n := |core.commands|;
      var c := next.commands[n];
      var es, final := Collect(core.commands, now, core.source).events, c.Execute(now, core.source).events;
      assert Collect(next.commands, now, core.source).events == es + final;
      FinalIgnored(p, Steps(p, core, Number(es, last)).core, c, now, core.source, last + |es|);
      NumberAppend(es, final, last);
      StepsAppend(p, core, Number(es, last), Number(final, last + |es|));
    }
  }

  lemma TidyIsOpen(core: Core)
    requires Tidy(core)
    ensures forall i :: 0 <= i < |core.commands| ==> !Final(core.commands[i])
  {
  }

  /** Replay ignores the events that end an execution. */
  lemma FinalIgnored(p: Program, core: Core, c: Command, now: Time, source: nat, last: int)
    requires Final(c) && c.state == Pending
    ensures
      var es := c.Execute(now, source).events;
      |es| == 1 && Steps(p, core, Number(es, last)) == Ok(core.(historyLength := last + 1))
  {
    var es := c.Execute(now, source).events;
    assert Number(es, last) == [es[0].(sequenceID := last + 1)];
    StepsOne(p, core, es[0].(sequenceID := last + 1));
  }

  lemma ExecutedBoundary(core: Core, executed: Core)
    requires executed.commands == ExecutedAll(core.commands)
    ensures Boundary(executed)
  {
  }

  lemma TidyExecuted(p: Program, core: Core, length: int)
    requires Tidy(core) && Settled(p, core)
    ensures
      var next := core.(commands := ExecutedAll(core.commands), historyLength := length);
      Tidy(next) && Settled(p, next) && Boundary(next)
  {
  }

  /** Wherever a task records requests to cancel sub-workflows, it leaves the workflow at rest. */
  predicate Restful(p: Program, x: Executor, t: Task, now: Time, source: nat) {
    var live := LiveTask(p, x, t, now, source);
    live.AllExecuted? ==>
      Rests(p, live.core, |live.core.commands|, now, source, x.lastSequenceID + |ToExecute(t, now, source)|)
  }

  /** What an error-free task records: the events it received, then those of its commands. */
  lemma TaskResult(p: Program, x: Executor, t: Task, now: Time, source: nat, maxHistorySize: int)
    requires ErrorFree(p, x, t, now, source, maxHistorySize)
    ensures
      var w := Work(p, x, false, t, now, source, maxHistorySize);
      var toExecute, next := ToExecute(t, now, source), Conclude(p, LiveTask(p, x, t, now, source).core).core;
      var r := Collect(next.commands, now, next.source);
      var n := |toExecute + r.events|;
      && w.Executed? && w.result.state == r.state
      && w.result.executed == Number(toExecute + r.events, x.lastSequenceID)
      && w.executor.lastSequenceID == x.lastSequenceID + n
      && w.executor.core == next.(commands := ExecutedAll(next.commands), historyLength := x.lastSequenceID + n)
  {
    hide ToExecute, ExecuteFrom, Conclude, Collect, Number;
  }

  lemma TaskSteps(p: Program, x: Executor, t: Task, now: Time, source: nat, maxHistorySize: int)
    returns (live: Core, next: Core)
    requires Tidy(x.core) && Settled(p, x.core) && ErrorFree(p, x, t, now, source, maxHistorySize)
    ensures LiveTask(p, x, t, now, source) == AllExecuted(live) && Conclude(p, live) == Ok(next)
    ensures Tidy(live) && Settled(p, live) && live.source == source
    ensures
      var w, r := Work(p, x, false, t, now, source, maxHistorySize), Collect(next.commands, now, source);
      var last, start := x.lastSequenceID + |ToExecute(t, now, source)|, x.core.(source := source);
      && w.Executed? && w.result.state == r.state
      && NumberedFrom(w.result.executed, x.lastSequenceID)
      && |w.result.executed| == |ToExecute(t, now, source)| + |r.events|
      && live.historyLength == last && w.executor.lastSequenceID == last + |r.events|
      && w.executor.core == next.(commands := ExecutedAll(next.commands), historyLength := last + |r.events|)
      && Steps(p, start, w.result.executed) == Steps(p, live, Number(r.events, last))
  {
    hide Handle, Tidy, Settled, Conclude, Collect, ExecuteFrom, Work, Steps;
    var start := x.core.(source := source);
    var toExecute := ToExecute(t, now, source);
    var last := x.lastSequenceID;
    live := LiveTask(p, x, t, now, source).core;
    next := Conclude(p, live).core;
    TidyExceptSource(p, x.core, source);
    LiveIsSteps(p, start, last, toExecute, 0);
    assert Number(toExecute, last)[0..] == Number(toExecute, last);
    StepsFrame(p, start, Number(toExecute, last));
    LiveTidy(p, start, last, toExecute, 0);
    ConcludeAdds(p, live);
    TaskResult(p, x, t, now, source, maxHistorySize);
    var es := Collect(next.commands, now, source).events;
    NumberAppend(toExecute, es, last);
    StepsAppend(p, start, Number(toExecute, last), Number(es, last + |toExecute|));
  }

  /**
    Replaying what an error-free task recorded succeeds, even if the task ended the execution;
    and if the task left the execution active, replay arrives at exactly the executor's new state.
   */
  lemma TaskReplays(p: Program, x: Executor, t: Task, now: Time, source: nat, maxHistorySize: int)
    requires Tidy(x.core) && Settled(p, x.core) && Restful(p, x, t, now, source)
    requires ErrorFree(p, x, t, now, source, maxHistorySize)
    ensures
      var w := Work(p, x, false, t, now, source, maxHistorySize);
      && w.Executed?
      && NumberedFrom(w.result.executed, x.lastSequenceID)
      && w.executor.lastSequenceID == x.lastSequenceID + |w.result.executed|
      && var replayed := Steps(p, x.core.(source := source), w.result.executed);
      && replayed.Ok?
      && (w.result.state != Active ==> replayed.core.pendingFutures == map[] && Boundary(replayed.core))
      && (w.result.state == Active ==>
            replayed.core == w.executor.core && Tidy(replayed.core) && Settled(p, replayed.core) &&
            Boundary(replayed.core))
  {
    hide Handle, Tidy, Settled, Boundary, Conclude, Command.Execute, ExecuteFrom, Rests, Steps, Work;
    var live, next := TaskSteps(p, x, t, now, source, maxHistorySize);
    var last := x.lastSequenceID + |ToExecute(t, now, source)|;
    var es := Collect(next.commands, now, source).events;
    CheckpointReplays(p, live, next, now, last);
    TidyExecuted(p, live, last + |es|);
    ExecutedBoundary(live, Steps(p, live, Number(es, last)).core);
  }
}
