/** The coroutine scheduler (internal/sync/scheduler.go). */
module Scheduling {
  import opened Basics
  import opened History

  /** What coroutines share. */
  datatype World = World(memory: seq<int>)

  /** One step of a coroutine until it blocks or finishes; it may have started other coroutines. */
  datatype Report = Report(finished: bool, progress: bool, error: Option<Error>, started: seq<nat>)
  {
    /** The error of a coroutine counts once it finished. */
    predicate Failed() {
      finished && error.Some?
    }
  }

  datatype Stepped = Stepped(world: World, report: Report)

  /** How coroutines behave: one deterministic step at a time. */
  type Behaviour = (World, nat) -> Stepped

  /**
    `rank` counts down while anything happens, so that the coroutines block in the end. The code runs on as
    long as they do not.
   */
  ghost predicate Settling(b: Behaviour, rank: World -> nat) {
    forall w, c {:trigger b(w, c)} ::
      var s := b(w, c);
      rank(s.world) <= rank(w) &&
      (s.report.finished || s.report.progress || s.report.started != [] ==> rank(s.world) < rank(w))
  }

  /**
    A sweep in progress: who stays, who is still to run, who ran, what they reported, and everyone
    there is, in the order of creation.
   */
  datatype Sweep = Sweep(
    world: World,
    kept: seq<nat>,
    queue: seq<nat>,
    ran: seq<nat>,
    reports: seq<Report>,
    created: seq<nat>,
    quiet: bool,
    error: Option<Error>)

  /** Runs the first coroutine of the queue; what it starts is queued last. */
  function Advance(b: Behaviour, s: Sweep): Sweep
    requires s.queue != []
  {
    var c := s.queue[0];
    var t := b(s.world, c);
    var r := t.report;
    Sweep(t.world,
          if r.finished then s.kept else s.kept + [c],
          s.queue[1..] + r.started,
          s.ran + [c],
          s.reports + [r],
          s.created + r.started,
          s.quiet && !r.finished && !r.progress,
          if r.finished then r.error else None)
  }

  /** Runs the queue until it is empty or a coroutine fails. */
  ghost function RunSweep(b: Behaviour, rank: World -> nat, s: Sweep): Sweep
    requires Settling(b, rank)
    decreases rank(s.world), |s.queue|
  {
    if s.queue == [] || s.error.Some? then s else RunSweep(b, rank, Advance(b, s))
  }

  function Begin(w: World, coroutines: seq<nat>): Sweep {
    Sweep(w, [], coroutines, [], [], coroutines, true, None)
  }

  /** Sweeps until one is quiet or a coroutine fails. */
  ghost function RunAll(b: Behaviour, rank: World -> nat, w: World, coroutines: seq<nat>): Sweep
    requires Settling(b, rank)
    decreases rank(w)
  {
    var s := RunSweep(b, rank, Begin(w, coroutines));
    SweepRanks(b, rank, Begin(w, coroutines));
    if s.error.Some? || s.quiet then s else RunAll(b, rank, s.world, s.kept)
  }

  lemma {:induction false} SweepRanks(b: Behaviour, rank: World -> nat, s: Sweep)
    requires Settling(b, rank)
    ensures
      var end := RunSweep(b, rank, s);
      rank(end.world) <= rank(s.world) && (s.quiet && !end.quiet ==> rank(end.world) < rank(s.world))
    decreases rank(s.world), |s.queue|
  {
    if s.queue != [] && s.error.None? {
      SweepRanks(b, rank, Advance(b, s));
    }
  }

  // ---------- what a sweep does ----------

  /** The coroutines that ran and did not finish, in order. */
  function Survivors(ran: seq<nat>, reports: seq<Report>): seq<nat>
    requires |ran| == |reports|
  {
    if ran == [] then []
    else
      var n := |ran| - 1;
      Survivors(ran[..n], reports[..n]) + if reports[n].finished then [] else [ran[n]]
  }

  /** Everyone started, in order. */
  function Started(reports: seq<Report>): seq<nat> {
    if reports == [] then [] else Started(reports[..|reports| - 1]) + reports[|reports| - 1].started
  }

  /** What the coroutines, run one after the other, make of the world. */
  function WorldAfter(b: Behaviour, w: World, ran: seq<nat>): World {
    if ran == [] then w else b(WorldAfter(b, w, ran[..|ran| - 1]), ran[|ran| - 1]).world
  }

  /** Everyone runs in order of creation, and who does not finish stays. */
  predicate Ordered(coroutines: seq<nat>, s: Sweep) {
    && |s.ran| == |s.reports| && s.kept == Survivors(s.ran, s.reports)
    && s.ran + s.queue == s.created == coroutines + Started(s.reports)
  }

  /** The reports are what each coroutine does in the world the one before left behind. */
  predicate Traced(b: Behaviour, w: World, s: Sweep) {
    && |s.ran| == |s.reports| && s.world == WorldAfter(b, w, s.ran)
    && (forall i :: 0 <= i < |s.ran| ==> s.reports[i] == b(WorldAfter(b, w, s.ran[..i]), s.ran[i]).report)
  }

  predicate Still(r: Report) {
    !r.finished && !r.progress
  }

  /** A sweep that began in world `w` with `coroutines`. */
  predicate WellFormed(b: Behaviour, w: World, coroutines: seq<nat>, s: Sweep) {
    Ordered(coroutines, s) && Traced(b, w, s) && (s.quiet <==> forall i :: 0 <= i < |s.reports| ==> Still(s.reports[i]))
  }

  /** Nobody failed but possibly the last, whose error is the sweep's. */
  predicate FailsLast(s: Sweep) {
    && (forall i :: 0 <= i < |s.reports| - 1 ==> !s.reports[i].Failed())
    && s.error ==
       (if s.reports != [] && s.reports[|s.reports| - 1].Failed() then s.reports[|s.reports| - 1].error else None)
  }

  lemma AdvanceOrdered(b: Behaviour, coroutines: seq<nat>, s: Sweep)
    requires Ordered(coroutines, s) && s.queue != []
    ensures Ordered(coroutines, Advance(b, s))
  {
    var t := Advance(b, s);
    assert t.ran[..|s.ran|] == s.ran && t.reports[..|s.reports|] == s.reports;
    assert s.queue == [s.queue[0]] + s.queue[1..];
  }

  lemma AdvanceTraced(b: Behaviour, w: World, s: Sweep)
    requires Traced(b, w, s) && s.queue != []
    ensures Traced(b, w, Advance(b, s))
  {
    var t, n := Advance(b, s), |s.ran|;
    assert t.ran[..n] == s.ran;
    forall i | 0 <= i <= n
      ensures t.reports[i] == b(WorldAfter(b, w, t.ran[..i]), t.ran[i]).report
    {
      assert t.ran[..i] == s.ran[..i];
    }
  }

  lemma AdvanceWellFormed(b: Behaviour, w: World, coroutines: seq<nat>, s: Sweep)
    requires WellFormed(b, w, coroutines, s) && s.queue != []
    ensures WellFormed(b, w, coroutines, Advance(b, s))
  {
    hide Ordered, Traced;
    var t, n := Advance(b, s), |s.reports|;
    AdvanceOrdered(b, coroutines, s);
    AdvanceTraced(b, w, s);
    assert t.reports[..n] == s.reports && (t.quiet <==> s.quiet && Still(t.reports[n]));
    forall i | 0 <= i < n
      ensures t.reports[i] == s.reports[i]
    {
    }
  }

  /**
    A sweep runs every coroutine that is present or gets started, once, in the order of creation, each in the world
    the one before left behind, unless one fails; those that did not finish stay, in order.
   */
  lemma {:induction false} SweepRunsAll(b: Behaviour, rank: World -> nat, w: World, coroutines: seq<nat>, s: Sweep)
    requires Settling(b, rank) && WellFormed(b, w, coroutines, s)
    ensures
      var end := RunSweep(b, rank, s);
      WellFormed(b, w, coroutines, end) && (end.error.None? ==> end.ran == end.created)
    decreases rank(s.world), |s.queue|
  {
    hide WellFormed;
    if s.queue != [] && s.error.None? {
      AdvanceWellFormed(b, w, coroutines, s);
      SweepRunsAll(b, rank, w, coroutines, Advance(b, s));
    } else if s.queue == [] {
      AllRan(b, w, coroutines, s);
    }
  }

  lemma AllRan(b: Behaviour, w: World, coroutines: seq<nat>, s: Sweep)
    requires WellFormed(b, w, coroutines, s) && s.queue == []
    ensures s.ran == s.created
  {
  }

  /**
    A failure ends the sweep: none before the last that ran failed, the sweep has an error exactly
    if somebody failed, and it is the error of that coroutine.
   */
  lemma {:induction false} SweepStopsAtFailure(b: Behaviour, rank: World -> nat, s: Sweep)
    requires Settling(b, rank) && FailsLast(s)
    ensures
      var end := RunSweep(b, rank, s);
      FailsLast(end) && (end.error.Some? <==> exists i :: 0 <= i < |end.reports| && end.reports[i].Failed())
    decreases rank(s.world), |s.queue|
  {
    if s.queue != [] && s.error.None? {
      AdvanceFailsLast(b, s);
      SweepStopsAtFailure(b, rank, Advance(b, s));
    }
  }

  lemma AdvanceFailsLast(b: Behaviour, s: Sweep)
    requires FailsLast(s) && s.queue != [] && s.error.None?
    ensures FailsLast(Advance(b, s))
  {
    var t, n := Advance(b, s), |s.reports|;
    forall i | 0 <= i < n
      ensures !t.reports[i].Failed()
    {
      assert t.reports[i] == s.reports[i];
    }
  }

  /** Without error, scheduling ends only after a sweep in which nothing finished or made progress. */
  lemma {:induction false} EndsQuiet(b: Behaviour, rank: World -> nat, w: World, coroutines: seq<nat>)
    returns (last: World, swept: seq<nat>)
    requires Settling(b, rank)
    ensures
      var end := RunAll(b, rank, w, coroutines);
      end.error.None? ==> end == RunSweep(b, rank, Begin(last, swept)) && end.quiet && end.kept == end.ran
    decreases rank(w)
  {
    hide WellFormed;
    var s := RunSweep(b, rank, Begin(w, coroutines));
    SweepRanks(b, rank, Begin(w, coroutines));
    if s.error.Some? || s.quiet {
      last, swept := w, coroutines;
      BeginWellFormed(b, w, coroutines);
      SweepRunsAll(b, rank, w, coroutines, Begin(w, coroutines));
      if s.quiet {
        QuietKeepsAll(b, w, coroutines, s);
      }
    } else {
      last, swept := EndsQuiet(b, rank, s.world, s.kept);
    }
  }

  lemma BeginWellFormed(b: Behaviour, w: World, coroutines: seq<nat>)
    ensures WellFormed(b, w, coroutines, Begin(w, coroutines)) && FailsLast(Begin(w, coroutines))
  {
  }

  lemma QuietKeepsAll(b: Behaviour, w: World, coroutines: seq<nat>, s: Sweep)
    requires WellFormed(b, w, coroutines, s) && s.quiet
    ensures s.kept == s.ran
  {
    NoneOver(s.ran, s.reports);
  }

  lemma {:induction false} NoneOver(ran: seq<nat>, reports: seq<Report>)
    requires |ran| == |reports| && forall i :: 0 <= i < |reports| ==> !reports[i].finished
    ensures Survivors(ran, reports) == ran
    decreases |ran|
  {
    if ran != [] {
      var n := |ran| - 1;
      NoneOver(ran[..n], reports[..n]);
      assert ran[..n] + [ran[n]] == ran;
    }
  }

  // ---------- the scheduler itself ----------

  /** Running and removing position `i` of the slice is taking the head of the queue. */
  lemma InPlace(cs: seq<nat>, i: nat, started: seq<nat>)
    requires i < |cs|
    ensures cs[i..] != [] && cs[i..][0] == cs[i]
    ensures
      var grown := cs + started;
      && grown[..i + 1] == cs[..i] + [cs[i]] && grown[i + 1..] == cs[i..][1..] + started
      && (grown[..i] + grown[i + 1..])[..i] == cs[..i] && (grown[..i] + grown[i + 1..])[i..] == cs[i..][1..] + started
  {
  }

  lemma SweepStep(b: Behaviour, rank: World -> nat, s: Sweep)
    requires Settling(b, rank) && s.queue != [] && s.error.None?
    ensures
      var t := Advance(b, s);
      && RunSweep(b, rank, s) == RunSweep(b, rank, t) && (t.error.Some? ==> RunSweep(b, rank, t) == t)
      && rank(t.world) <= rank(s.world)
      && (rank(t.world) == rank(s.world) ==>
            b(s.world, s.queue[0]).report.started == [] && !b(s.world, s.queue[0]).report.finished)
  {
  }

  lemma AllStep(b: Behaviour, rank: World -> nat, w: World, coroutines: seq<nat>)
    requires Settling(b, rank)
    ensures
      var end := RunSweep(b, rank, Begin(w, coroutines));
      && RunAll(b, rank, w, coroutines) == (if end.error.Some? || end.quiet then end else RunAll(b, rank, end.world, end.kept))
      && (!end.quiet ==> rank(end.world) < rank(w))
  {
    SweepRanks(b, rank, Begin(w, coroutines));
  }

  lemma Swept(b: Behaviour, rank: World -> nat, s: Sweep)
    requires Settling(b, rank) && s.queue == []
    ensures RunSweep(b, rank, s) == s
  {
  }

  class Scheduler {
    var coroutines: seq<nat>
    var world: World
    const behaviour: Behaviour
    ghost const rank: World -> nat

    constructor (behaviour: Behaviour, ghost rank: World -> nat, world: World)
      requires Settling(behaviour, rank)
      ensures coroutines == [] && this.world == world && this.behaviour == behaviour && this.rank == rank
    {
      this.behaviour, this.rank, this.world, coroutines := behaviour, rank, world, [];
    }

    method NewCoroutine(c: nat)
      modifies this`coroutines
      ensures coroutines == old(coroutines) + [c]
    {
      coroutines := coroutines + [c];
    }

    /** Runs all coroutines until they are all blocked; the slice is swept in place. */
    method Execute() returns (error: Option<Error>)
      requires Settling(behaviour, rank)
      modifies this
      ensures
        var end := RunAll(behaviour, rank, old(world), old(coroutines));
        error == end.error && world == end.world && coroutines == end.kept + end.queue
    {
      hide Settling, RunSweep, RunAll;
      ghost var expected := RunAll(behaviour, rank, world, coroutines);
      var allBlocked := false;
      while !allBlocked
        invariant if allBlocked
                  then expected.error.None? && world == expected.world && coroutines == expected.kept + expected.queue
                  else RunAll(behaviour, rank, world, coroutines) == expected
        decreases if allBlocked then 0 else 1, rank(world)
      {
        allBlocked := true;
        ghost var before, present := world, coroutines;
        ghost var s := Begin(world, coroutines);
        ghost var end := RunSweep(behaviour, rank, s);
        AllStep(behaviour, rank, world, coroutines);
        var i := 0;
        while i < |coroutines|
          invariant 0 <= i <= |coroutines|
          invariant s.world == world && s.kept == coroutines[..i] && s.queue == coroutines[i..]
          invariant s.quiet == allBlocked && s.error.None? && RunSweep(behaviour, rank, s) == end
          decreases rank(world), |coroutines| - i
        {
          var c := coroutines[i];
          var t := behaviour(world, c);
          InPlace(coroutines, i, t.report.started);
          SweepStep(behaviour, rank, s);
          s := Advance(behaviour, s);
          world := t.world;
          coroutines := coroutines + t.report.started;
          if t.report.finished {
            allBlocked := false;
            coroutines := coroutines[..i] + coroutines[i + 1..];
            if t.report.error.Some? {
              return t.report.error;
            }
          } else {
            allBlocked := allBlocked && !t.report.progress;
            i := i + 1;
          }
        }
        Swept(behaviour, rank, s);
        assert coroutines[..i] == coroutines;
      }
      return None;
    }
  }
}
