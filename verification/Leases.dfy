/** Leases: who may be given an execution or an activity, and for how long nobody else is. */
module Leases {
  import opened Basics
  import opened History
  import opened Contract
  import opened Database
  import opened Ledgers
  import opened Recording
  import opened Protocol
  import opened Guarantees

  // ---------- what one step does to a lease ----------

  /** The row of an execution after a step, by its fields. */
  predicate RowAfter(c: Call, key: Key, a: InstanceRow, b: InstanceRow) {
    && b.queue == a.queue && b.parent == a.parent
    && if c.Fetch? && c.key == key then
         b.lockedUntil == Some(c.until) && b.worker == Some(c.worker) && b.stickyUntil == a.stickyUntil &&
         b.state == a.state && b.completedAt == a.completedAt
       else if c.Extend? && c.key == key && a.worker == Some(c.worker) then
         b.lockedUntil == Some(c.until) && b.worker == a.worker && b.stickyUntil == a.stickyUntil &&
         b.state == a.state && b.completedAt == a.completedAt
       else if c.Finish? && c.key == key && a.worker == Some(c.worker) then
         b.lockedUntil == None && b.worker == a.worker && b.stickyUntil == Some(c.at + c.settings.stickyTimeout) &&
         b.state == c.report.result.state &&
         b.completedAt == if b.state == Active then None else Some(c.at)
       else b == a
  }

  predicate LeaseStep(s: System, c: Call, s': System, key: Key) {
    && s.ledger.removed <= s'.ledger.removed
    && (key in s.db.instances && key !in s'.db.instances ==> key in s'.ledger.removed)
    && (key in s.db.instances && key in s'.db.instances ==> RowAfter(c, key, s.db.instances[key], s'.db.instances[key]))
    && (key !in s.db.instances && key in s'.db.instances ==>
          key !in s.ledger.removed && Newborn(s'.db.instances[key]) && !(c.Fetch? && c.key == key))
  }

  lemma FinishLease(s: System, c: Call, key: Key)
    requires Sane(s) && c.Finish? && Permitted(s, c)
    ensures LeaseStep(s, c, After(s, c), key)
  {
    hide Inv, Honest, Fresh, ClaimHolds, DrawsFrom, Completed, IsOrder, Timely;
    assert ClaimHolds(s.db, c.worker, c.key, s.claims[(c.worker, c.key)]);
    ClaimKey(s.db, c.worker, c.key, s.claims[(c.worker, c.key)]);
    if c.key in s.db.instances && s.db.instances[c.key].worker == Some(c.worker) {
      ReportTimely(s, c);
      CompleteKeeps(s.db, s.ledger, c.worker, c.report, c.settings, c.at, c.order);
      HeldKey(s.db, s.ledger, c.report);
      PresentNotRemoved(After(s, c).db, After(s, c).ledger);
      assert key != c.key ==> Elsewhere(s.db, After(s, c).db, key);
    }
  }

  lemma CreateLease(s: System, c: Call, key: Key)
    requires Sane(s) && c.Create? && Permitted(s, c)
    ensures LeaseStep(s, c, After(s, c), key)
  {
    hide Inv, ClaimsHold, PendingConflict, HasActive;
    StepSane(s, c);
    PresentNotRemoved(After(s, c).db, After(s, c).ledger);
  }

  lemma RemoveLease(s: System, c: Call, key: Key)
    requires Sane(s) && c.Remove? && Permitted(s, c)
    ensures LeaseStep(s, c, After(s, c), key)
  {
    hide Inv, ClaimsHold;
  }

  lemma OtherLease(s: System, c: Call, key: Key)
    requires Sane(s) && !c.Finish? && !c.Create? && !c.Remove? && Permitted(s, c)
    ensures LeaseStep(s, c, After(s, c), key)
  {
    hide Inv, ClaimsHold, PendingConflict, HasActive, Enumerates, VisibleRows;
  }

  lemma StepLeases(s: System, c: Call, key: Key)
    requires Sane(s) && Permitted(s, c)
    ensures LeaseStep(s, c, After(s, c), key)
  {
    hide Sane, Permitted, After, LeaseStep;
    if c.Finish? {
      FinishLease(s, c, key);
    } else if c.Create? {
      CreateLease(s, c, key);
    } else if c.Remove? {
      RemoveLease(s, c, key);
    } else {
      OtherLease(s, c, key);
    }
  }

  // ---------- while a lease lasts ----------

  /** Nobody is given the execution, its holder does not complete it, and no extension ends before `until`. */
  predicate Uninterrupted(calls: seq<Call>, key: Key, holder: Worker, until: Time) {
    forall c :: c in calls ==>
      && !(c.Fetch? && c.key == key)
      && !(c.Finish? && c.key == key && c.worker == holder)
      && (c.Extend? && c.key == key ==> c.until >= until)
  }

  predicate LeasedUntil(s: System, key: Key, holder: Worker, until: Time) {
    if key in s.db.instances then
      s.db.instances[key].worker == Some(holder) && s.db.instances[key].lockedUntil.Some? &&
      s.db.instances[key].lockedUntil.value >= until
    else key in s.ledger.removed
  }

  lemma {:induction false} LeaseLasts(s: System, calls: seq<Call>, key: Key, holder: Worker, until: Time)
    requires Sane(s) && AllowedRun(s, calls) && Uninterrupted(calls, key, holder, until)
    requires LeasedUntil(s, key, holder, until)
    ensures LeasedUntil(Guarantees.Run(s, calls), key, holder, until)
    decreases |calls|
  {
    hide Sane, After, Permitted;
    if calls != [] {
      assert calls[0] in calls;
      StepSane(s, calls[0]);
      StepLeases(s, calls[0], key);
      LeaseLasts(After(s, calls[0]), calls[1..], key, holder, until);
    }
  }

  /**
    A worker that was given an execution until a certain time, and neither completed it nor shortened its lease: nobody
    is given that execution, by a clock that does not show a later time.
   */
  lemma LeaseExcludes(s: System, given: Call, calls: seq<Call>, again: Call)
    requires Sane(s) && given.Fetch? && Permitted(s, given) && AllowedRun(After(s, given), calls)
    requires Uninterrupted(calls, given.key, given.worker, given.until)
    requires again.Fetch? && again.key == given.key && Permitted(Guarantees.Run(After(s, given), calls), again)
    ensures again.now > given.until
  {
    hide Sane, After, AllowedRun, Guarantees.Run, Enumerates, VisibleRows;
    StepSane(s, given);
    StepLeases(s, given, given.key);
    FetchedExists(s, given, given.key);
    LeaseLasts(After(s, given), calls, given.key, given.worker, given.until);
    assert Lockable(Guarantees.Run(After(s, given), calls).db, again.worker, again.queues, again.now, again.key);
  }

  // ---------- while a worker is preferred ----------

  predicate StuckTo(s: System, key: Key, holder: Worker, until: Time) {
    if key in s.db.instances then
      s.db.instances[key].worker == Some(holder) && s.db.instances[key].stickyUntil == Some(until)
    else key in s.ledger.removed
  }

  /** Nobody is given the execution, so nobody completes it. */
  predicate NotGiven(calls: seq<Call>, key: Key, holder: Worker) {
    forall c :: c in calls ==> !(c.Fetch? && c.key == key) && !(c.Finish? && c.key == key && c.worker == holder)
  }

  lemma {:induction false} PreferenceLasts(s: System, calls: seq<Call>, key: Key, holder: Worker, until: Time)
    requires Sane(s) && AllowedRun(s, calls) && NotGiven(calls, key, holder) && StuckTo(s, key, holder, until)
    ensures StuckTo(Guarantees.Run(s, calls), key, holder, until)
    decreases |calls|
  {
    hide Sane, After, Permitted;
    if calls != [] {
      assert calls[0] in calls;
      StepSane(s, calls[0]);
      StepLeases(s, calls[0], key);
      PreferenceLasts(After(s, calls[0]), calls[1..], key, holder, until);
    }
  }

  /** After a worker completed a task, only the same worker is given the execution until the sticky timeout passed. */
  lemma StickyPrefers(s: System, done: Call, calls: seq<Call>, again: Call)
    requires Sane(s) && done.Finish? && Permitted(s, done) && TaskTx(s, done).Commit?
    requires AllowedRun(After(s, done), calls) && NotGiven(calls, done.key, done.worker)
    requires again.Fetch? && again.key == done.key && Permitted(Guarantees.Run(After(s, done), calls), again)
    ensures again.worker == done.worker || again.now > done.at + done.settings.stickyTimeout
  {
    hide Sane, After, AllowedRun, Guarantees.Run, Enumerates, VisibleRows, TaskTx;
    Fencing(s, done);
    StepSane(s, done);
    StepLeases(s, done, done.key);
    PreferenceLasts(After(s, done), calls, done.key, done.worker, done.at + done.settings.stickyTimeout);
    assert Lockable(Guarantees.Run(After(s, done), calls).db, again.worker, again.queues, again.now, again.key);
  }

  // ---------- once leases have passed ----------

  /** The row has been completed exactly if the execution is over. */
  predicate CompletedWhenOver(db: Db) {
    forall k :: k in db.instances ==> (db.instances[k].state == Active <==> db.instances[k].completedAt.None?)
  }

  lemma StepCompleted(s: System, c: Call)
    requires Sane(s) && Permitted(s, c) && CompletedWhenOver(s.db)
    ensures CompletedWhenOver(After(s, c).db)
  {
    hide Sane, Permitted, After;
    forall k | k in After(s, c).db.instances
      ensures After(s, c).db.instances[k].state == Active <==> After(s, c).db.instances[k].completedAt.None?
    {
      StepLeases(s, c, k);
    }
  }

  lemma {:induction false} RunCompleted(s: System, calls: seq<Call>)
    requires Sane(s) && AllowedRun(s, calls) && CompletedWhenOver(s.db)
    ensures CompletedWhenOver(Guarantees.Run(s, calls).db)
    decreases |calls|
  {
    hide Sane, After, Permitted, CompletedWhenOver;
    if calls != [] {
      StepSane(s, calls[0]);
      StepCompleted(s, calls[0]);
      RunCompleted(After(s, calls[0]), calls[1..]);
    }
  }

  lemma ReachableCompleted(s: System)
    requires Reachable(s)
    ensures Sane(s) && CompletedWhenOver(s.db)
  {
    hide Sane, Guarantees.Run, AllowedRun;
    var calls :| AllowedRun(Empty, calls) && Guarantees.Run(Empty, calls) == s;
    EmptyIsSane();
    RunSane(Empty, calls);
    RunCompleted(Empty, calls);
  }

  /** A set of pending rows can be listed. */
  lemma {:induction false} Listing(key: Key, rows: set<PendingRow>) returns (events: seq<Event>)
    requires forall row :: row in rows ==> row.key == key
    requires forall r, q :: r in rows && q in rows && r.event.id == q.event.id ==> r == q
    ensures Enumerates(events, key, rows)
    decreases |rows|
  {
    if rows == {} {
      events := [];
    } else {
      var row :| row in rows;
      var rest := Listing(key, rows - {row});
      events := [row.event] + rest;
      Listed(key, row, rows, rest);
    }
  }

  lemma Listed(key: Key, row: PendingRow, rows: set<PendingRow>, rest: seq<Event>)
    requires row in rows && row.key == key && Enumerates(rest, key, rows - {row})
    requires forall r, q :: r in rows && q in rows && r.event.id == q.event.id ==> r == q
    ensures Enumerates([row.event] + rest, key, rows)
  {
    assert row == PendingRow(key, row.event);
    forall i | 0 <= i < |rest|
      ensures rest[i].id != row.event.id
    {
      assert PendingRow(key, rest[i]) in RowsFor(key, rest);
    }
    assert RowsFor(key, [row.event] + rest) == {row} + RowsFor(key, rest);
  }

  lemma RowsDistinct(s: System, key: Key, now: Time)
    requires Inv(s.db, s.ledger, {})
    ensures forall r, q :: r in VisibleRows(s.db, key, now) && q in VisibleRows(s.db, key, now) && r.event.id == q.event.id ==>
              r == q
  {
    hide Owned, Deliveries, Sequenced, OneActive, Finality, Known, Accounted, ActivitiesSettle, TimersSettle,
         SubWorkflowsSettle, DistinctIds;
  }

  /**
    An active execution with an event to process, whose lease and preference have passed, can be
    given to any worker that does not have it still.
   */
  lemma AnybodyMayFetch(s: System, w: Worker, key: Key, queues: set<Queue>, now: Time, until: Time)
    returns (events: seq<Event>)
    requires Reachable(s) && key in s.db.instances && (w, key) !in s.claims
    requires
      var row := s.db.instances[key];
      && row.state == Active && row.queue in queues
      && (row.lockedUntil.None? || row.lockedUntil.value < now)
      && (row.stickyUntil.None? || row.stickyUntil.value < now || row.worker == Some(w))
    requires exists row :: row in s.db.pending && row.key == key &&
                           (row.event.visibleAt.None? || row.event.visibleAt.value <= now)
    ensures Permitted(s, Fetch(w, key, queues, now, until, now, events))
  {
    hide Reachable, Inv, Enumerates;
    ReachableCompleted(s);
    RowsDistinct(s, key, now);
    events := Listing(key, VisibleRows(s.db, key, now));
    var row :| row in s.db.pending && row.key == key && (row.event.visibleAt.None? || row.event.visibleAt.value <= now);
    assert row in VisibleRows(s.db, key, now);
  }

  /** Exactly then: whatever is given was free, active, of a queue asked for, and had an event to process. */
  lemma OnlyFreeIsFetched(s: System, c: Call)
    requires c.Fetch? && Permitted(s, c)
    ensures
      && c.key in s.db.instances
      && var row := s.db.instances[c.key];
      && row.state == Active && row.queue in c.queues
      && (row.lockedUntil.None? || row.lockedUntil.value < c.now)
      && (row.stickyUntil.None? || row.stickyUntil.value < c.now || row.worker == Some(c.worker))
    ensures exists row :: row in s.db.pending && row.key == c.key &&
                          (row.event.visibleAt.None? || row.event.visibleAt.value <= c.now)
  {
    hide Enumerates;
    var row :| row in VisibleRows(s.db, c.key, c.now);
  }

  // ---------- activities ----------

  predicate ActivityRowAfter(c: Call, id: Name, a: ActivityRow, b: ActivityRow) {
    && b.key == a.key && b.queue == a.queue && b.event == a.event
    && if c.FetchActivity? && c.id == id && (b.lockedUntil != a.lockedUntil || b.worker != a.worker)
       then b.lockedUntil == Some(c.until) && b.worker == Some(c.worker)
       else b.lockedUntil == a.lockedUntil && b.worker == a.worker
  }

  /** An activity stays as it is until its holder completes it. */
  predicate ActivityStep(s: System, c: Call, s': System, id: Name) {
    id in s.db.activities ==>
      (id !in s'.db.activities ==> c.FinishActivity? && c.id == id && s.db.activities[id].worker == Some(c.worker)) &&
      (id in s'.db.activities ==> ActivityRowAfter(c, id, s.db.activities[id], s'.db.activities[id]))
  }

  lemma FinishKeepsActivities(s: System, c: Call, id: Name)
    requires Sane(s) && c.Finish? && Permitted(s, c)
    ensures ActivityStep(s, c, After(s, c), id)
  {
    hide Inv, Honest, Fresh, ClaimHolds, DrawsFrom, Completed, IsOrder, Timely, Elsewhere;
    assert ClaimHolds(s.db, c.worker, c.key, s.claims[(c.worker, c.key)]);
    ClaimKey(s.db, c.worker, c.key, s.claims[(c.worker, c.key)]);
    if c.key in s.db.instances && s.db.instances[c.key].worker == Some(c.worker) {
      ReportTimely(s, c);
      CompleteKeeps(s.db, s.ledger, c.worker, c.report, c.settings, c.at, c.order);
    }
  }

  lemma OthersKeepActivities(s: System, c: Call, id: Name)
    requires !c.Finish? && Permitted(s, c)
    ensures ActivityStep(s, c, After(s, c), id)
  {
    hide PendingConflict, HasActive, Enumerates, VisibleRows;
  }

  lemma StepActivities(s: System, c: Call, id: Name)
    requires Sane(s) && Permitted(s, c)
    ensures ActivityStep(s, c, After(s, c), id)
  {
    hide Sane, Permitted, After, ActivityStep;
    if c.Finish? {
      FinishKeepsActivities(s, c, id);
    } else {
      OthersKeepActivities(s, c, id);
    }
  }

  /** Nobody is given the activity, and its holder does not complete it. */
  predicate ActivityUndisturbed(calls: seq<Call>, id: Name, holder: Worker) {
    forall c :: c in calls ==>
      !(c.FetchActivity? && c.id == id) && !(c.FinishActivity? && c.id == id && c.worker == holder)
  }

  predicate ActivityLeased(s: System, id: Name, holder: Worker, until: Time) {
    && id in s.db.activities && s.db.activities[id].worker == Some(holder)
    && s.db.activities[id].lockedUntil == Some(until)
  }

  lemma {:induction false} ActivityLeaseLasts(s: System, calls: seq<Call>, id: Name, holder: Worker, until: Time)
    requires Sane(s) && AllowedRun(s, calls) && ActivityUndisturbed(calls, id, holder)
    requires ActivityLeased(s, id, holder, until)
    ensures ActivityLeased(Guarantees.Run(s, calls), id, holder, until)
    decreases |calls|
  {
    hide Sane, After, Permitted;
    if calls != [] {
      assert calls[0] in calls;
      StepSane(s, calls[0]);
      StepActivities(s, calls[0], id);
      ActivityLeaseLasts(After(s, calls[0]), calls[1..], id, holder, until);
    }
  }

  /** An activity that was leased until a certain time, and is not completed, is given to nobody before. */
  lemma ActivityLeaseExcludes(s: System, given: Call, calls: seq<Call>, again: Call)
    requires Sane(s) && given.FetchActivity? && Permitted(s, given)
    requires LockActivity(s.db, given.worker, given.until, given.id).Commit?
    requires AllowedRun(After(s, given), calls) && ActivityUndisturbed(calls, given.id, given.worker)
    requires again.FetchActivity? && again.id == given.id && Permitted(Guarantees.Run(After(s, given), calls), again)
    ensures again.now > given.until
  {
    hide Sane, AllowedRun, Guarantees.Run;
    StepSane(s, given);
    ActivityLeaseLasts(After(s, given), calls, given.id, given.worker, given.until);
  }

  /** Once its lease has passed, anybody who asks for its queue may have it. */
  lemma AnybodyMayFetchActivity(s: System, w: Worker, id: Name, queues: set<Queue>, now: Time, until: Time)
    requires id in s.db.activities && s.db.activities[id].queue in queues
    ensures
      var row := s.db.activities[id];
      Permitted(s, FetchActivity(w, id, queues, now, until)) <==> row.lockedUntil.None? || row.lockedUntil.value < now
  {
  }
}
