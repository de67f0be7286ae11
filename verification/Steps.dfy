/**
  Live execution and replay are the same computation. Both are compared with `Steps`, which
  executes each recorded event with the history length equal to its sequence id.
 */
module Stepping {
  import opened Basics
  import opened History
  import opened Commands
  import opened Execution
  import opened Similarity

  /** The reference semantics of a recorded, numbered history. */
  function Steps(p: Program, core: Core, events: seq<Event>): Handled
    decreases |events|
  {
    if events == [] then Ok(core)
    else
      match Handle(p, core.(historyLength := events[0].sequenceID), events[0])
      case Ok(next) => Steps(p, next, events[1..])
      case Err(next, reason) => Err(next, reason)
      case Panic => Panic
  }

  lemma {:induction false} StepsAppend(p: Program, core: Core, es: seq<Event>, fs: seq<Event>)
    ensures Steps(p, core, es + fs) ==
            match Steps(p, core, es)
            case Ok(next) => Steps(p, next, fs)
            case other => other
    decreases |es|
  {
    hide Handle;
    if es == [] {
      assert es + fs == fs;
    } else {
      assert (es + fs)[1..] == es[1..] + fs;
      var h := Handle(p, core.(historyLength := es[0].sequenceID), es[0]);
      if h.Ok? {
        StepsAppend(p, h.core, es[1..], fs);
      }
    }
  }

  lemma HandleIgnoresSequenceID(p: Program, core: Core, e: Event, n: int)
    ensures Handle(p, core, e.(sequenceID := n)) == Handle(p, core, e)
  {
  }

  /** Executing new events live is stepping through them once they are numbered. */
  lemma {:induction false} LiveIsSteps(p: Program, core: Core, last: int, events: seq<Event>, i: nat)
    requires i <= |events|
    ensures
      match ExecuteFrom(p, core, last, events, i)
      case AllExecuted(c) => Steps(p, core, Number(events, last)[i..]) == Ok(c)
      case Stopped(c, n, reason) =>
        i <= n < |events| && Steps(p, core, Number(events, last)[i..]) == Err(c, reason) &&
        Steps(p, core, Number(events, last)[i..n]).Ok?
      case Crashed => Steps(p, core, Number(events, last)[i..]) == Panic
    decreases |events| - i
  {
    hide Handle;
    if i < |events| {
      var numbered := Number(events, last)[i..];
      HandleIgnoresSequenceID(p, core.(historyLength := last + i + 1), events[i], last + i + 1);
      assert numbered[1..] == Number(events, last)[i + 1..];
      var h := Handle(p, core.(historyLength := last + i + 1), events[i]);
      if h.Ok? {
        LiveIsSteps(p, h.core, last, events, i + 1);
        var live := ExecuteFrom(p, h.core, last, events, i + 1);
        if live.Stopped? {
          assert Number(events, last)[i..live.count][1..] == Number(events, last)[i + 1..live.count];
        }
      }
    }
  }

  /** Replaying consecutive history is stepping through it. */
  lemma {:induction false} ReplayIsSteps(p: Program, x: Executor, events: seq<Event>)
    requires NumberedFrom(events, x.lastSequenceID)
    ensures
      match Steps(p, x.core, events)
      case Ok(c) => Replay(p, x, events) == Caught(Executor(c, x.lastSequenceID + |events|))
      case Err(c, reason) =>
        Replay(p, x, events).Failed? && Replay(p, x, events).executor.core == c && Replay(p, x, events).reason == reason
      case Panic => Replay(p, x, events) == Crash
    decreases |events|
  {
    hide Handle;
    if events != [] {
      var h := Handle(p, x.core.(historyLength := x.lastSequenceID + 1), events[0]);
      if h.Ok? {
        ReplayIsSteps(p, Executor(h.core, events[0].sequenceID), events[1..]);
      }
    }
  }

  lemma {:induction false} SimilarSteps(p: Program, a: Core, b: Core, events: seq<Event>, drawn: bool)
    requires Similar(a, b, drawn)
    ensures SimilarHandled(Steps(p, a, events), Steps(p, b, events), drawn)
    decreases |events|
  {
    hide Handle;
    if events != [] {
      var a', b' := a.(historyLength := events[0].sequenceID), b.(historyLength := events[0].sequenceID);
      SimilarHandle(p, a', b', events[0], drawn);
      if Handle(p, a', events[0]).Ok? {
        SimilarSteps(p, Handle(p, a', events[0]).core, Handle(p, b', events[0]).core, events[1..], drawn);
      }
    }
  }

  /** While an event executes, workflow code sees the event's own sequence id as the history length. */
  lemma {:induction false} StepsFrame(p: Program, core: Core, events: seq<Event>)
    requires Steps(p, core, events).Ok?
    ensures
      var next := Steps(p, core, events).core;
      && next.instance == core.instance && next.source == core.source
      && next.historyLength == if events == [] then core.historyLength else events[|events| - 1].sequenceID
    decreases |events|
  {
    hide Handle;
    if events != [] {
      var before := core.(historyLength := events[0].sequenceID);
      StepsFrame(p, Handle(p, before, events[0]).core, events[1..]);
    }
  }
}
