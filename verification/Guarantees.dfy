/** What holds of every run of the protocol. */
module Guarantees {
  import opened Basics
  import opened History
  import opened Commands
  import opened Execution
  import opened Histories
  import opened Contract
  import opened Database
  import opened Ledgers
  import opened Transactions
  import opened Recording
  import opened Bookkeeping
  import opened Settlement
  import opened Protocol

  predicate AllowedRun(s: System, calls: seq<Call>)
    decreases |calls|
  {
    calls == [] || (Permitted(s, calls[0]) && AllowedRun(After(s, calls[0]), calls[1..]))
  }

  function Run(s: System, calls: seq<Call>): System
    requires AllowedRun(s, calls)
    decreases |calls|
  {
    if calls == [] then s else Run(After(s, calls[0]), calls[1..])
  }

  lemma {:induction false} RunSane(s: System, calls: seq<Call>)
    requires Sane(s) && AllowedRun(s, calls)
    ensures Sane(Run(s, calls))
    decreases |calls|
  {
    hide Sane, After, Permitted;
    if calls != [] {
      StepSane(s, calls[0]);
      RunSane(After(s, calls[0]), calls[1..]);
    }
  }

  /** In every reachable database every invariant holds, whatever the workers and clients did. */
  lemma EveryRun(calls: seq<Call>)
    requires AllowedRun(Empty, calls)
    ensures Inv(Run(Empty, calls).db, Run(Empty, calls).ledger, {})
  {
    hide Inv, After, Permitted;
    EmptyIsSane();
    RunSane(Empty, calls);
  }

  // ---------- fencing ----------

  /** A completion commits exactly if its worker still has the lease; otherwise nothing changes. */
  lemma Fencing(s: System, c: Call)
    requires Sane(s) && c.Finish? && Permitted(s, c)
    ensures TaskTx(s, c).Commit? <==> c.key in s.db.instances && s.db.instances[c.key].worker == Some(c.worker)
    ensures TaskTx(s, c).Abort? ==> After(s, c).db == s.db && After(s, c).ledger == s.ledger
    ensures TaskTx(s, c).Commit? ==>
              && s.db.HistoryOf(c.key) == s.claims[(c.worker, c.key)].seen
              && (c.key in After(s, c).db.instances ==>
                    After(s, c).db.HistoryOf(c.key) == s.claims[(c.worker, c.key)].seen + c.report.result.executed &&
                    After(s, c).db.instances[c.key].state == c.report.result.state)
              && (c.key !in After(s, c).db.instances ==>
                    c.settings.removeContinuedAsNew && c.report.result.state == InstanceState.ContinuedAsNew)
  {
    hide Inv, Honest, Fresh, ClaimHolds, Elsewhere, DrawsFrom, Completed, IsOrder, Timely;
    assert ClaimHolds(s.db, c.worker, c.key, s.claims[(c.worker, c.key)]);
    ClaimKey(s.db, c.worker, c.key, s.claims[(c.worker, c.key)]);
    if c.key in s.db.instances && s.db.instances[c.key].worker == Some(c.worker) {
      ReportTimely(s, c);
      CompleteKeeps(s.db, s.ledger, c.worker, c.report, c.settings, c.at, c.order);
    }
  }

  /**
    Fencing is by worker name: a worker that fetches an execution again, after its lease expired,
    does not shut out the completion of the task it was given before.
   */
  lemma FencingIsByName(db: Db, w: Worker, until: Time, t: Task, r: ExecutionResult, settings: Settings, now: Time,
                        source: nat, order: seq<Instance>)
    requires forall e :: e in r.activityEvents ==> e.attributes.ActivityScheduled?
    requires IsOrder(order, r.workflowEvents)
    requires KeyOf(t.instance) in db.instances && db.instances[KeyOf(t.instance)].worker == Some(w)
    ensures CompleteWorkflowTask(LockInstance(db, w, until, KeyOf(t.instance)), w, t, r, settings, now, source, order) ==
            CompleteWorkflowTask(db, w, t, r, settings, now, source, order)
  {
    hide InsertHistory, DeletePending, Database.ScheduleActivities, InsertPending, RemoveFutureEvents, DeliverGroups;
    var key, locked := KeyOf(t.instance), LockInstance(db, w, until, KeyOf(t.instance));
    assert db.instances[key := Unlock(db.instances[key], r.state, now, settings.stickyTimeout)] ==
           locked.instances[key := Unlock(locked.instances[key], r.state, now, settings.stickyTimeout)];
  }

  /** The worker that last fetched a task of `key`. */
  function LatestFetch(calls: seq<Call>, key: Key, before: Option<Worker>): Option<Worker>
    decreases |calls|
  {
    if calls == [] then before
    else LatestFetch(calls[1..], key, if calls[0].Fetch? && calls[0].key == key then Some(calls[0].worker) else before)
  }

  /** What one step does to an execution. */
  predicate StepOn(s: System, c: Call, s': System, key: Key) {
    && s.ledger.removed <= s'.ledger.removed
    && (key in s.db.instances ==> key in s'.db.instances || key in s'.ledger.removed)
    && (key in s'.db.instances && key !in s.db.instances ==>
          s'.db.instances[key].worker.None? && key !in s.ledger.removed && !(c.Fetch? && c.key == key) &&
          s'.db.HistoryOf(key) == [])
    && (key in s'.db.instances && key in s.db.instances ==>
          && s'.db.instances[key].worker == (if c.Fetch? && c.key == key then Some(c.worker) else s.db.instances[key].worker)
          && s'.db.instances[key].parent == s.db.instances[key].parent
          && (s.db.instances[key].state != Active ==>
                s'.db.instances[key].state == s.db.instances[key].state && s'.db.HistoryOf(key) == s.db.HistoryOf(key))
          && s.db.HistoryOf(key) <= s'.db.HistoryOf(key)
          && (s'.db.HistoryOf(key) != s.db.HistoryOf(key) ==>
                c.Finish? && c.key == key && (c.worker, key) in s.claims &&
                s'.db.HistoryOf(key) == s.claims[(c.worker, key)].seen + c.report.result.executed))
  }

  lemma FinishOn(s: System, c: Call, key: Key)
    requires Sane(s) && c.Finish? && Permitted(s, c)
    ensures StepOn(s, c, After(s, c), key)
  {
    hide Inv, Honest, Fresh, ClaimHolds, DrawsFrom, Completed, IsOrder, Timely;
    assert ClaimHolds(s.db, c.worker, c.key, s.claims[(c.worker, c.key)]);
    ClaimKey(s.db, c.worker, c.key, s.claims[(c.worker, c.key)]);
    if c.key in s.db.instances && s.db.instances[c.key].worker == Some(c.worker) {
      ReportTimely(s, c);
      CompleteKeeps(s.db, s.ledger, c.worker, c.report, c.settings, c.at, c.order);
      HeldKey(s.db, s.ledger, c.report);
      PresentNotRemoved(After(s, c).db, After(s, c).ledger);
      AbsentHasNoHistory(s.db, s.ledger);
      assert key != c.key ==> Elsewhere(s.db, After(s, c).db, key);
    }
  }

  lemma PresentNotRemoved(db: Db, g: Ledger)
    requires Inv(db, g, {})
    ensures forall k :: k in db.instances ==> k !in g.removed
  {
    hide Owned, Once, Deliveries, Sequenced, OneActive, Finality, Accounted, ActivitiesSettle, TimersSettle,
         SubWorkflowsSettle;
  }

  lemma AbsentHasNoHistory(db: Db, g: Ledger)
    requires Inv(db, g, {})
    ensures forall k :: k !in db.instances ==> db.HistoryOf(k) == []
  {
    hide Owned, Once, Deliveries, Sequenced, OneActive, Known, Accounted, ActivitiesSettle, TimersSettle,
         SubWorkflowsSettle,
         TerminalOnlyLast, HasTerminal;
  }

  /** Requests of clients. */
  lemma CreateOn(s: System, c: Call, key: Key)
    requires Sane(s) && c.Create? && Permitted(s, c)
    ensures StepOn(s, c, After(s, c), key)
  {
    hide Inv, ClaimsHold, PendingConflict, HasActive;
    AbsentHasNoHistory(s.db, s.ledger);
    StepSane(s, c);
    PresentNotRemoved(After(s, c).db, After(s, c).ledger);
  }

  lemma DeliverOn(s: System, c: Call, key: Key)
    requires Sane(s) && (c.Signal? || c.Cancel?) && Permitted(s, c)
    ensures StepOn(s, c, After(s, c), key)
  {
    hide Inv, ClaimsHold, PendingConflict, HasActive;
  }

  lemma RemoveOn(s: System, c: Call, key: Key)
    requires Sane(s) && c.Remove? && Permitted(s, c)
    ensures StepOn(s, c, After(s, c), key)
  {
    hide Inv, ClaimsHold;
    PresentNotRemoved(s.db, s.ledger);
  }

  /** Leases, and activities. */
  lemma LeaseOn(s: System, c: Call, key: Key)
    requires Sane(s) && (c.Fetch? || c.Extend? || c.Forget? || c.FetchActivity? || c.FinishActivity?) && Permitted(s, c)
    ensures StepOn(s, c, After(s, c), key)
  {
    hide Inv, ClaimsHold, PendingConflict, Enumerates, VisibleRows;
  }

  lemma Stepwise(s: System, c: Call, key: Key)
    requires Sane(s) && Permitted(s, c)
    ensures StepOn(s, c, After(s, c), key)
  {
    hide Sane, Permitted, After, StepOn;
    if c.Finish? {
      FinishOn(s, c, key);
    } else if c.Create? {
      CreateOn(s, c, key);
    } else if c.Signal? || c.Cancel? {
      DeliverOn(s, c, key);
    } else if c.Remove? {
      RemoveOn(s, c, key);
    } else {
      LeaseOn(s, c, key);
    }
  }

  // ---------- over whole runs ----------

  /** The lease on an execution belongs to whoever fetched last, through any number of expiries. */
  lemma {:induction false} LeaseIsLatest(s: System, calls: seq<Call>, key: Key, before: Option<Worker>)
    requires Sane(s) && AllowedRun(s, calls)
    requires key in s.db.instances ==> s.db.instances[key].worker == before
    requires before.Some? ==> key in s.db.instances || key in s.ledger.removed
    ensures
      var end := Run(s, calls);
      key in end.db.instances ==> end.db.instances[key].worker == LatestFetch(calls, key, before)
    decreases |calls|
  {
    hide Sane, After, Permitted;
    if calls != [] {
      var next := After(s, calls[0]);
      StepSane(s, calls[0]);
      Stepwise(s, calls[0], key);
      RemovedStays(s);
      FetchedExists(s, calls[0], key);
      LeaseIsLatest(next, calls[1..], key, if calls[0].Fetch? && calls[0].key == key then Some(calls[0].worker) else before);
    }
  }

  lemma RemovedStays(s: System)
    requires Sane(s)
    ensures forall k :: k in s.db.instances ==> k !in s.ledger.removed
  {
    hide Inv;
    PresentNotRemoved(s.db, s.ledger);
  }

  lemma FetchedExists(s: System, c: Call, key: Key)
    requires Permitted(s, c)
    ensures c.Fetch? && c.key == key ==> key in s.db.instances
  {
    hide Enumerates, VisibleRows;
  }

  /**
    In every run, a completion succeeds only for the worker that fetched the execution last, and it
    does unless the execution was removed; and it records exactly what was computed from the present history.
   */
  lemma OnlyLatestSucceeds(calls: seq<Call>, c: Call)
    requires AllowedRun(Empty, calls) && c.Finish? && Permitted(Run(Empty, calls), c)
    ensures
      var s := Run(Empty, calls);
      TaskTx(s, c).Commit? <==> c.key in s.db.instances && LatestFetch(calls, c.key, None) == Some(c.worker)
  {
    hide Sane, After, Permitted, TaskTx;
    var s := Run(Empty, calls);
    EmptyIsSane();
    RunSane(Empty, calls);
    LeaseIsLatest(Empty, calls, c.key, None);
    Fencing(s, c);
  }

  /** A history only grows, and never after its execution is over. */
  lemma {:induction false} HistoryIsFinal(s: System, calls: seq<Call>, key: Key)
    requires Sane(s) && AllowedRun(s, calls) && key in s.db.instances && key !in Run(s, calls).ledger.removed
    ensures
      var end := Run(s, calls);
      && key in end.db.instances
      && s.db.HistoryOf(key) <= end.db.HistoryOf(key)
      && (s.db.instances[key].state != Active ==>
            end.db.HistoryOf(key) == s.db.HistoryOf(key) && end.db.instances[key].state == s.db.instances[key].state)
    decreases |calls|
  {
    hide Sane, After, Permitted;
    if calls != [] {
      StepSane(s, calls[0]);
      Stepwise(s, calls[0], key);
      RemovedGrows(After(s, calls[0]), calls[1..]);
      HistoryIsFinal(After(s, calls[0]), calls[1..], key);
    }
  }

  lemma {:induction false} RemovedGrows(s: System, calls: seq<Call>)
    requires Sane(s) && AllowedRun(s, calls)
    ensures s.ledger.removed <= Run(s, calls).ledger.removed
    decreases |calls|
  {
    hide Sane, After, Permitted;
    if calls != [] {
      StepSane(s, calls[0]);
      Stepwise(s, calls[0], Key(Chosen(""), Chosen("")));
      RemovedGrows(After(s, calls[0]), calls[1..]);
    }
  }

  // ---------- what that means for one execution ----------

  ghost predicate Reachable(s: System) {
    exists calls :: AllowedRun(Empty, calls) && Run(Empty, calls) == s
  }

  lemma ReachableInv(s: System)
    requires Reachable(s)
    ensures Inv(s.db, s.ledger, {})
  {
    hide Inv, Run, AllowedRun;
    var calls :| AllowedRun(Empty, calls) && Run(Empty, calls) == s;
    EveryRun(calls);
  }

  /** Histories are numbered 1, 2, ...; the final event is the last, and there exactly if the execution is over. */
  lemma HistoryShape(s: System, key: Key)
    requires Reachable(s) && key in s.db.instances
    ensures
      var h := s.db.HistoryOf(key);
      && NumberedFrom(h, 0) && DistinctIds(h)
      && (s.db.instances[key].state != Active <==> h != [] && IsTerminal(h[|h| - 1].attributes))
      && (forall i :: 0 <= i < |h| - 1 ==> !IsTerminal(h[i].attributes))
  {
    hide Owned, Deliveries, OneActive, Known, Accounted, ActivitiesSettle, TimersSettle, SubWorkflowsSettle, Reachable;
    ReachableInv(s);
  }

  /** At most one active execution per instance id. */
  lemma SingleActive(s: System, j: Key, k: Key)
    requires Reachable(s) && j in s.db.instances && k in s.db.instances && j.instanceID == k.instanceID
    requires s.db.instances[j].state == Active && s.db.instances[k].state == Active
    ensures j == k
  {
    hide Owned, Once, Deliveries, Sequenced, Finality, Known, Accounted, ActivitiesSettle, TimersSettle,
         SubWorkflowsSettle, Reachable;
    ReachableInv(s);
  }

  /**
    Exactly one of: an activities row, a pending result, a recorded result; and none
    of them for an activity that was never recorded.
   */
  lemma ActivityConserved(s: System, key: Key, id: int)
    requires Reachable(s) && key !in s.ledger.removed
    ensures if id in Ids(s.db.HistoryOf(key), ActivityStart) then ExactlyOne(s.db, key, id, ActivityEnd)
            else NoToken(s.db, key, id, ActivityEnd)
  {
    hide Structure, TimersSettle, SubWorkflowsSettle, Reachable, ExactlyOne, NoToken, Ids;
    ReachableInv(s);
  }

  /** Exactly one of: an active execution with this parent and event id, a pending result, a recorded result. */
  lemma SubWorkflowConserved(s: System, key: Key, id: int)
    requires Reachable(s) && key !in s.ledger.removed
    ensures if id in Ids(s.db.HistoryOf(key), SubWorkflowStart) then ExactlyOne(s.db, key, id, SubWorkflowEnd)
            else NoToken(s.db, key, id, SubWorkflowEnd)
  {
    hide Structure, TimersSettle, ActivitiesSettle, Reachable, ExactlyOne, NoToken, Ids;
    ReachableInv(s);
  }

  /** A timer fires exactly once, pending or recorded, unless canceled; a canceled timer is not pending. */
  lemma TimerConserved(s: System, key: Key, id: int)
    requires Reachable(s) && key !in s.ledger.removed
    ensures
      var h := s.db.HistoryOf(key);
      && (id !in Ids(h, TimerStart) ==> NoToken(s.db, key, id, TimerFire))
      && (id in Ids(h, TimerStart) && id !in Ids(h, TimerStop) ==> ExactlyOne(s.db, key, id, TimerFire))
      && (id in Ids(h, TimerStop) ==>
            (forall t :: Holds(s.db, key, id, TimerFire, t) ==> t.Kept?) &&
            (NoToken(s.db, key, id, TimerFire) || ExactlyOne(s.db, key, id, TimerFire)))
  {
    hide Owned, Once, Sequenced, OneActive, Finality, Known, Accounted, SubWorkflowsSettle, ActivitiesSettle,
         Reachable, ExactlyOne, NoToken, Ids;
    ReachableInv(s);
    StopsStarted(s.db, s.ledger, key);
    forall t | Holds(s.db, key, id, TimerFire, t) && id in Ids(s.db.HistoryOf(key), TimerStop)
      ensures t.Kept?
    {
    }
  }

  /** An accepted event is pending or recorded, not both, unless it was the event of a canceled timer. */
  lemma EventConserved(s: System, row: PendingRow)
    requires Reachable(s) && row in s.ledger.accepted && row.key !in s.ledger.removed
    ensures row in s.db.pending || Among(row.event, s.db.HistoryOf(row.key)) ||
            (row.event.attributes.TimerFired? && row.event.scheduleEventID in Ids(s.db.HistoryOf(row.key), TimerStop))
    ensures !(row in s.db.pending && Among(row.event, s.db.HistoryOf(row.key)))
  {
    hide Owned, Deliveries, Sequenced, OneActive, Finality, Known, SubWorkflowsSettle, ActivitiesSettle, TimersSettle,
         Reachable, Ids, DistinctIds;
    ReachableInv(s);
  }
}
