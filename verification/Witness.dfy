/** The hypotheses can be met: a cluster in which a worker takes a workflow from its creation to its end. */
module Witness {
  import opened Basics
  import opened History
  import opened Commands
  import opened Execution
  import opened Determinism
  import opened Resting
  import opened CacheTransparency
  import opened Contract
  import opened Counterexamples
  import opened Database
  import opened Ledgers
  import opened Protocol
  import opened Guarantees
  import opened Cluster

  const Self := Instance(Chosen("a"), Chosen("1"), None, 0)
  const Started := NewPendingEvent(Chosen("e"), 0, 0, ExecutionStarted("", "", []))
  const Limit := 100
  const Created := Transact(Create(Self, Started))
  const Fetched := Transact(Fetch(0, KeyOf(Self), {""}, 1, 2, 1, [Started]))
  const Run := Execute(0, KeyOf(Self), 1, 1, 2)
  const Given := Task(Self, Active, "", [Started], 0)

  lemma InstantIsQuiet()
    ensures Quiet(Instant)
  {
  }

  lemma InstantRests(h: seq<Event>, t: Task, now: Time, source: nat)
    requires h == []
    ensures RestfulAfter(Instant, Self, h, t, now, source)
  {
    hide Quiet, Restful, RestfulAfter;
    InstantIsQuiet();
    var x := NewExecutor(Self, source);
    NewExecutorAgrees(Instant, Self, source);
    AgreesTidy(Instant, Self, [], x, source);
    assert x.core.(source := source) == x.core;
    QuietRests(Instant, x, t, now, source);
    RestfulWherever(Instant, Self, [], x, t, now, source);
  }

  /** The client's request creates the instance. */
  lemma AfterCreated()
    ensures Permitted(Empty, Create(Self, Started))
    ensures
      var s := After(Empty, Create(Self, Started));
      && s.db == Db(map[KeyOf(Self) := InstanceRow("", None, Active, None, None, None, None)],
                    {PendingRow(KeyOf(Self), Started)}, map[], map[])
      && s.claims == map[] && s.ledger.owner == map[Started.id := KeyOf(Self)]
      && s.ledger.executions == {Self.executionID}
  {
    var db := CreateInstance(Empty.db, "", Self).db;
    assert RowsFor(KeyOf(Self), [Started]) == {PendingRow(KeyOf(Self), Started)};
    assert IdsOf([Started]) == {Started.id};
    assert !PendingConflict(db, KeyOf(Self), [Started]);
  }

  /** A worker fetches its first task. */
  lemma AfterFetched(s: System)
    requires s.db == Db(map[KeyOf(Self) := InstanceRow("", None, Active, None, None, None, None)],
                        {PendingRow(KeyOf(Self), Started)}, map[], map[])
    requires s.claims == map[]
    ensures Permitted(s, Fetched.call)
    ensures
      var t := After(s, Fetched.call);
      && t.ledger == s.ledger && t.claims == map[(0, KeyOf(Self)) := Claim(Given, [])]
      && HoldsLease(t, 0, KeyOf(Self)) && t.db.HistoryOf(KeyOf(Self)) == []
      && t.db.history == map[] && t.db.pending == s.db.pending
      && t.db.instances == map[KeyOf(Self) := s.db.instances[KeyOf(Self)].(lockedUntil := Some(2), worker := Some(0))]
  {
    assert VisibleRows(s.db, KeyOf(Self), 1) == {PendingRow(KeyOf(Self), Started)};
    assert RowsFor(KeyOf(Self), [Started]) == {PendingRow(KeyOf(Self), Started)};
  }

  /** Executing it ends the workflow. */
  lemma InstantEnds()
    ensures
      var w := Work(Instant, NewExecutor(Self, 2), false, Given, 1, 1, Limit);
      && w.Executed? && w.result.state == Finished
      && w.result.activityEvents == [] && w.result.timerEvents == [] && w.result.workflowEvents == []
      && DistinctIds(w.result.executed)
  {
    var x := NewExecutor(Self, 2);
    var events := ToExecute(Given, 1, 1);
    var core := x.core.(source := 1);
    var first := Handle(Instant, core.(historyLength := 1), events[0]).core;
    var second := Handle(Instant, first.(historyLength := 2), events[1]);
    assert second.Ok?;
    assert ExecuteFrom(Instant, second.core, 0, events, 2) == AllExecuted(second.core);
    assert ExecuteFrom(Instant, first, 0, events, 1) == AllExecuted(second.core);
    var batch := Executing(Instant, x, Given, 1, 1);
    var c := Command(1, Complete(Self, "", None), Pending, false);
    assert batch.core.commands == [c];
    assert [c][..0] == [] && Collect([], 1, 1) == NoResult;
    assert Collect([c], 1, 1) == NoResult.Then(c.Execute(1, 1));
  }

  /** The states of the run. */
  lemma FirstMoves() returns (c: State)
    ensures Enabled(Instant, Idle, Created, Limit) && Cluster.Coherent(Instant, Idle)
    ensures
      var c1 := AfterMove(Instant, Idle, Created, Limit);
      Enabled(Instant, c1, Fetched, Limit) && Cluster.Coherent(Instant, c1) && c == AfterMove(Instant, c1, Fetched, Limit)
    ensures c.caches == map[] && c.hands == map[]
    ensures c.system.claims == map[(0, KeyOf(Self)) := Claim(Given, [])]
    ensures HoldsLease(c.system, 0, KeyOf(Self)) && c.system.db.HistoryOf(KeyOf(Self)) == []
    ensures c.system.ledger.owner == map[Started.id := KeyOf(Self)] && c.system.ledger.executions == {Self.executionID}
  {
    hide Cluster.Coherent, After, Sane, Permitted;
    IdleIsCoherent(Instant);
    AfterCreated();
    var c1 := AfterMove(Instant, Idle, Created, Limit);
    MoveCoherent(Instant, Idle, Created, Limit);
    AfterFetched(c1.system);
    c := AfterMove(Instant, c1, Fetched, Limit);
  }

  lemma ExecutedMove(c: State)
    requires Cluster.Coherent(Instant, c) && c.caches == map[] && c.hands == map[]
    requires c.system.claims == map[(0, KeyOf(Self)) := Claim(Given, [])]
    requires c.system.db.HistoryOf(KeyOf(Self)) == []
    ensures Enabled(Instant, c, Run, Limit)
    ensures
      var d := AfterMove(Instant, c, Run, Limit);
      && d.system == c.system && (0, KeyOf(Self)) in d.hands
      && d.hands[(0, KeyOf(Self))].report.result.state != Active
      && d.hands[(0, KeyOf(Self))].report.result.workflowEvents == []
      && d.hands[(0, KeyOf(Self))].report.source == 1
  {
    hide Cluster.Coherent, Work, Executing, RestfulAfter;
    InstantRests([], Given, 1, 1);
    InstantEnds();
  }

  /** So there is a run in which the instance is created, fetched, executed and completed. */
  lemma ARun() returns (moves: seq<Move>, end: State)
    ensures Follows(Instant, Idle, moves, Limit, end)
    ensures KeyOf(Self) in end.system.db.instances && end.system.db.instances[KeyOf(Self)].state != Active
  {
    hide Cluster.Coherent, Sane, AfterMove, Enabled, Permitted, After, TaskTx;
    var c2 := FirstMoves();
    var c1 := AfterMove(Instant, Idle, Created, Limit);
    MoveCoherent(Instant, c1, Fetched, Limit);
    ExecutedMove(c2);
    var c3 := AfterMove(Instant, c2, Run, Limit);
    MoveCoherent(Instant, c2, Run, Limit);
    var sent := Send(0, KeyOf(Self), Settings(0, false), 3, []);
    end := Completes(c3, sent);
    moves := [Created, Fetched, Run, sent];
    assert moves[1..] == [Fetched, Run, sent] && moves[1..][1..] == [Run, sent] && moves[1..][1..][1..] == [sent];
    assert [sent][1..] == [];
    assert Follows(Instant, end, [], Limit, end);
    assert Follows(Instant, c3, [sent], Limit, end);
    assert Follows(Instant, c2, [Run, sent], Limit, end);
    assert Follows(Instant, c1, [Fetched, Run, sent], Limit, end);
  }

  lemma CoherentIsSane(c: State)
    requires Cluster.Coherent(Instant, c)
    ensures Sane(c.system)
  {
  }

  lemma Completes(c: State, m: Move) returns (end: State)
    requires Cluster.Coherent(Instant, c) && m == Send(0, KeyOf(Self), Settings(0, false), 3, [])
    requires (0, KeyOf(Self)) in c.hands && (0, KeyOf(Self)) in c.system.claims && HoldsLease(c.system, 0, KeyOf(Self))
    requires c.hands[(0, KeyOf(Self))].report.result.state != Active
    requires c.hands[(0, KeyOf(Self))].report.result.workflowEvents == [] &&
             c.hands[(0, KeyOf(Self))].report.source == 1
    requires c.system.ledger.owner == map[Started.id := KeyOf(Self)] && c.system.ledger.executions == {Self.executionID}
    ensures Enabled(Instant, c, m, Limit) && end == AfterMove(Instant, c, m, Limit)
    ensures KeyOf(Self) in end.system.db.instances && end.system.db.instances[KeyOf(Self)].state != Active
  {
    hide Cluster.Coherent, Sane, Permitted, TaskTx, After;
    CoherentIsSane(c);
    ReportPermitted(Instant, c, m, Limit);
    var call := Finish(0, KeyOf(Self), c.hands[(0, KeyOf(Self))].report, m.settings, m.at, m.order);
    Fencing(c.system, call);
    end := AfterMove(Instant, c, m, Limit);
  }

  // ---------- one worker, two leases ----------

  lemma FirstCompletes(db: Db, r: ExecutionResult)
    requires KeyOf(Self) in db.instances && db.instances[KeyOf(Self)].worker == Some(0) && db.history == map[]
    requires r.state == Finished && DistinctIds(r.executed)
    requires r.activityEvents == [] && r.timerEvents == [] && r.workflowEvents == []
    ensures CompleteWorkflowTask(db, 0, Given, r, Settings(0, false), 3, 1, []).Commit?
  {
    hide DistinctIds;
    var key := KeyOf(Given.instance);
    var unlocked := db.(instances := db.instances[key := Unlock(db.instances[key], r.state, 3, 0)]);
    var deleted := DeletePending(unlocked, key, r.executed);
    assert !HistoryConflict(deleted, key, r.executed);
    var recorded := InsertHistory(deleted, key, r.executed);
    assert Database.ScheduleActivities(recorded.db, key, "", []) == Commit(recorded.db);
    assert DistinctIds([]) by { NoneDistinct(); }
    assert !PendingConflict(recorded.db, key, []);
    assert Record(db, Given, r, 3, 0).Commit?;
  }

  lemma NoneDistinct()
    ensures DistinctIds([])
  {
  }

  /**
    A run in which a worker is given the same execution again while it still works on the first
    task, whose completion is then outdated and commits nevertheless.
   */
  lemma OutdatedCompletionCommits()
    ensures Permitted(Empty, Create(Self, Started)) && Permitted(After(Empty, Create(Self, Started)), Fetched.call)
    ensures
      var leased := After(After(Empty, Create(Self, Started)), Fetched.call);
      var first := Work(Instant, NewExecutor(Self, 2), false, Given, 1, 1, Limit);
      && leased.claims == map[(0, KeyOf(Self)) := Claim(Given, [])]
      && Lockable(leased.db, 0, {""}, 3, KeyOf(Self)) && first.Executed?
      && first.result.activityEvents == [] && first.result.workflowEvents == []
      && var again := LockInstance(leased.db, 0, 4, KeyOf(Self));
         CompleteWorkflowTask(again, 0, Given, first.result, Settings(0, false), 3, 1, []).Commit?
  {
    hide After, Permitted, CompleteWorkflowTask, Work, DistinctIds;
    AfterCreated();
    AfterFetched(After(Empty, Create(Self, Started)));
    InstantEnds();
    var leased := After(After(Empty, Create(Self, Started)), Fetched.call);
    LeaseExpires(leased.db);
    FirstCompletes(LockInstance(leased.db, 0, 4, KeyOf(Self)),
                   Work(Instant, NewExecutor(Self, 2), false, Given, 1, 1, Limit).result);
  }

  lemma LeaseExpires(db: Db)
    requires db.instances == map[KeyOf(Self) := InstanceRow("", None, Active, None, Some(2), None, Some(0))]
    requires db.pending == {PendingRow(KeyOf(Self), Started)}
    ensures Lockable(db, 0, {""}, 3, KeyOf(Self))
  {
    assert PendingRow(KeyOf(Self), Started) in VisibleRows(db, KeyOf(Self), 3);
  }
}
