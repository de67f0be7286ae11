/** Workers with real executors follow the protocol, so all its guarantees are theirs. */
module Conformance {
  import opened Basics
  import opened Execution
  import opened CacheTransparency
  import opened Database
  import opened Recording
  import opened Protocol
  import opened Guarantees
  import opened Cluster

  /** What a move of a worker is to the database: a call, or nothing. */
  function CallsOf(p: Program, c: State, m: Move, maxHistorySize: int): seq<Call>
    requires Enabled(p, c, m, maxHistorySize)
  {
    match m
    case Transact(call) => [call]
    case Execute(w, key, now, source, replaySource) =>
      var t, h := c.system.claims[(w, key)].task, c.system.db.HistoryOf(key);
      if ExecuteTask(p, ExecutorFor(c, w, key, replaySource), t, h, now, source, replaySource, maxHistorySize).Executed?
      then [] else [Forget(w, key)]
    case Send(w, key, settings, at, order) =>
      if HoldsLease(c.system, w, key) then [Finish(w, key, c.hands[(w, key)].report, settings, at, order)]
      else [Forget(w, key)]
    case Evict(_, _) => []
    case Drop(w, key) => [Forget(w, key)]
  }

  lemma RunOne(s: System, call: Call)
    requires Permitted(s, call)
    ensures AllowedRun(s, [call]) && Guarantees.Run(s, [call]) == After(s, call)
  {
    hide Permitted, After;
    assert AllowedRun(After(s, call), []);
    assert [call][1..] == [];
  }

  lemma RunNone(s: System)
    ensures AllowedRun(s, []) && Guarantees.Run(s, []) == s
  {
  }

  lemma ForgetRuns(s: System, w: Worker, key: Key)
    ensures AllowedRun(s, [Forget(w, key)]) &&
            Guarantees.Run(s, [Forget(w, key)]) == s.(claims := s.claims - {(w, key)})
  {
    RunOne(s, Forget(w, key));
  }

  /** Every move is an allowed run of at most one call. */
  lemma MoveIsRun(p: Program, c: State, m: Move, maxHistorySize: int)
    requires Cluster.Coherent(p, c) && Enabled(p, c, m, maxHistorySize)
    ensures AllowedRun(c.system, CallsOf(p, c, m, maxHistorySize))
    ensures Guarantees.Run(c.system, CallsOf(p, c, m, maxHistorySize)) == AfterMove(p, c, m, maxHistorySize).system
  {
    hide Cluster.Coherent, Permitted, After, Guarantees.Run, AllowedRun, ExecuteTask, ReportOf, CatchUp, RestfulAfter,
         IsOrder, Fresh;
    RunNone(c.system);
    match m
    case Transact(call) => RunOne(c.system, call);
    case Execute(w, key, _, _, _) => ForgetRuns(c.system, w, key);
    case Send(w, key, settings, at, order) =>
      ForgetRuns(c.system, w, key);
      if HoldsLease(c.system, w, key) {
        ReportPermitted(p, c, m, maxHistorySize);
        RunOne(c.system, Finish(w, key, c.hands[(w, key)].report, settings, at, order));
      }
    case Evict(_, _) =>
    case Drop(w, key) => ForgetRuns(c.system, w, key);
  }

  lemma {:induction false} RunAppend(s: System, a: seq<Call>, b: seq<Call>)
    requires AllowedRun(s, a) && AllowedRun(Guarantees.Run(s, a), b)
    ensures AllowedRun(s, a + b) && Guarantees.Run(s, a + b) == Guarantees.Run(Guarantees.Run(s, a), b)
    decreases |a|
  {
    hide Permitted, After;
    if a == [] {
      assert a + b == b;
    } else {
      assert (a + b)[1..] == a[1..] + b;
      RunAppend(After(s, a[0]), a[1..], b);
    }
  }

  /** The worker that was last given a task of `key`. */
  function LatestGiven(moves: seq<Move>, key: Key, before: Option<Worker>): Option<Worker>
    decreases |moves|
  {
    if moves == [] then before
    else
      LatestGiven(moves[1..], key,
                  match moves[0]
                  case Transact(Fetch(w, k, _, _, _, _, _)) => if k == key then Some(w) else before
                  case _ => before)
  }

  lemma {:induction false} LatestAppend(a: seq<Call>, b: seq<Call>, key: Key, before: Option<Worker>)
    ensures LatestFetch(a + b, key, before) == LatestFetch(b, key, LatestFetch(a, key, before))
    decreases |a|
  {
    if a == [] {
      assert a + b == b;
    } else {
      assert (a + b)[1..] == a[1..] + b;
      LatestAppend(a[1..], b, key, if a[0].Fetch? && a[0].key == key then Some(a[0].worker) else before);
    }
  }

  /** Every run of the cluster is an allowed run of the protocol, in which the same workers fetched last. */
  lemma {:induction false} ClusterConforms(p: Program, c: State, moves: seq<Move>, maxHistorySize: int, end: State)
    returns (calls: seq<Call>)
    requires Follows(p, c, moves, maxHistorySize, end)
    ensures AllowedRun(c.system, calls) && Guarantees.Run(c.system, calls) == end.system
    ensures forall key, before :: LatestFetch(calls, key, before) == LatestGiven(moves, key, before)
    decreases |moves|
  {
    hide Cluster.Coherent, Enabled, AfterMove, Guarantees.Run, AllowedRun, CallsOf;
    if moves == [] {
      calls := [];
      RunNone(c.system);
    } else {
      var first := CallsOf(p, c, moves[0], maxHistorySize);
      MoveIsRun(p, c, moves[0], maxHistorySize);
      var rest := ClusterConforms(p, AfterMove(p, c, moves[0], maxHistorySize), moves[1..], maxHistorySize, end);
      calls := first + rest;
      RunAppend(c.system, first, rest);
      forall key, before
        ensures LatestFetch(calls, key, before) == LatestGiven(moves, key, before)
      {
        LatestAppend(first, rest, key, before);
        FirstFetch(p, c, moves[0], maxHistorySize, key, before);
      }
    }
  }

  lemma FirstFetch(p: Program, c: State, m: Move, maxHistorySize: int, key: Key, before: Option<Worker>)
    requires Enabled(p, c, m, maxHistorySize)
    ensures LatestFetch(CallsOf(p, c, m, maxHistorySize), key, before) == LatestGiven([m], key, before)
  {
    hide Permitted, ExecuteTask, RestfulAfter, IsOrder, Fresh;
    var calls := CallsOf(p, c, m, maxHistorySize);
    assert [m][1..] == [] && (calls != [] ==> calls[1..] == []);
  }

  /** So whatever is proved of reachable databases holds of clusters. */
  lemma ClusterReachable(p: Program, moves: seq<Move>, maxHistorySize: int, end: State)
    requires Follows(p, Idle, moves, maxHistorySize, end)
    ensures Reachable(end.system)
  {
    hide Follows, Guarantees.Run, AllowedRun;
    var calls := ClusterConforms(p, Idle, moves, maxHistorySize, end);
  }

  /** And the worker whose report is recorded is the one that was given the execution last. */
  lemma OnlyLatestRecords(p: Program, moves: seq<Move>, maxHistorySize: int, end: State, w: Worker, key: Key)
    requires Follows(p, Idle, moves, maxHistorySize, end)
    ensures HoldsLease(end.system, w, key) <==>
            key in end.system.db.instances && LatestGiven(moves, key, None) == Some(w)
  {
    hide Follows, Guarantees.Run, AllowedRun, Sane;
    var calls := ClusterConforms(p, Idle, moves, maxHistorySize, end);
    EmptyIsSane();
    LeaseIsLatest(Empty, calls, key, None);
  }
}
