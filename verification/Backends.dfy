/**
  The SQLite backend as an object: transactions work on their own view of the tables, which is kept only if
  they commit (backend/sqlite, backend/history/grouping.go).
 */
module Backends {
  import opened Basics
  import opened History
  import opened Execution
  import opened Database
  import opened Tables

  const BATCH_SIZE := 20

  /** The transaction did what the function says; after a failure its view of the tables is dropped. */
  predicate Did(tx: Tx, error: Option<TxError>, db: Db) {
    match tx
    case Commit(d) => error.None? && db == d
    case Abort(e) => error == Some(e)
  }

  class Transaction {
    var db: Db

    constructor (db: Db)
      ensures this.db == db
    {
      this.db := db;
    }

    /** insertEvents: inserts the events in batches, each in one statement, which fails if a key is taken. */
    method InsertPendingEvents(key: Key, events: seq<Event>) returns (error: Option<TxError>)
      modifies this
      ensures Did(InsertPending(old(db), key, events), error, db)
      ensures error.None? ==>
                db.pending == old(db).pending + (set e | e in events :: PendingRow(key, e))
    {
      var start := 0;
      assert events[..0] == [];
      while start < |events|
        invariant 0 <= start <= |events|
        invariant !PendingConflict(old(db), key, events[..start])
        invariant db == old(db).(pending := old(db).pending + RowsFor(key, events[..start]))
      {
        hide PendingConflict, RowsFor;
        var end := if start + BATCH_SIZE > |events| then |events| else start + BATCH_SIZE;
        PendingBatch(old(db), key, events[..start], events[start..end], events[end..]);
        Reassemble(events, start, end);
        if PendingConflict(db, key, events[start..end]) {
          return Some(ConstraintViolation);
        }
        db := db.(pending := db.pending + RowsFor(key, events[start..end]));
        start := end;
      }
      assert events[..start] == events;
      return None;
    }

    method InsertHistoryEvents(key: Key, events: seq<Event>) returns (error: Option<TxError>)
      modifies this
      ensures Did(InsertHistory(old(db), key, events), error, db)
      ensures error.None? ==> db.HistoryOf(key) == old(db).HistoryOf(key) + events
    {
      var start := 0;
      assert events[..0] == [];
      NoEvents(db, key);
      while start < |events|
        invariant 0 <= start <= |events|
        invariant !HistoryConflict(old(db), key, events[..start])
        invariant db == Appended(old(db), key, events[..start])
      {
        hide HistoryConflict, Appended;
        var end := if start + BATCH_SIZE > |events| then |events| else start + BATCH_SIZE;
        HistoryBatch(old(db), key, events[..start], events[start..end], events[end..]);
        AppendBatch(old(db), key, events[..start], events[start..end]);
        Reassemble(events, start, end);
        if HistoryConflict(db, key, events[start..end]) {
          return Some(ConstraintViolation);
        }
        db := db.(history := db.history[key := db.HistoryOf(key) + events[start..end]]);
        start := end;
      }
      assert events[..start] == events;
      return None;
    }

    method CreateInstance(queue: Queue, i: Instance) returns (error: Option<TxError>)
      modifies this
      ensures Did(Database.CreateInstance(old(db), queue, i), error, db)
      ensures error.Some? ==> db == old(db)
    {
      if HasActive(db, i.instanceID) {
        return Some(TxError.InstanceAlreadyExists);
      }
      if KeyOf(i) in db.instances {
        return Some(ConstraintViolation);
      }
      db := db.(instances := db.instances[KeyOf(i) := InstanceRow(queue, LinkOf(i), Active, None, None, None, None)]);
      return None;
    }

    method RemoveInstance(key: Key) returns (error: Option<TxError>)
      modifies this
      ensures Did(RemoveWorkflowInstance(old(db), key), error, db)
    {
      if key !in db.instances {
        return Some(InstanceNotFound);
      }
      if db.instances[key].state == Active {
        return Some(InstanceNotFinished);
      }
      db := db.(instances := db.instances - {key});
      db := db.(history := db.history - {key});
      return None;
    }

    /** One row per scheduled activity. */
    method ScheduleActivities(key: Key, queue: Queue, events: seq<Event>) returns (error: Option<TxError>)
      requires forall e :: e in events ==> e.attributes.ActivityScheduled?
      modifies this
      ensures Did(Database.ScheduleActivities(old(db), key, queue, events), error, db)
      ensures error.None? ==>
                forall e :: e in events ==>
                  && e.id !in old(db).activities && e.id in db.activities
                  && db.activities[e.id] ==
                     ActivityRow(key, if e.attributes.queue == "" then queue else e.attributes.queue, e, None, None)
    {
      EveryRow(db, key, queue, events);
      for i := 0 to |events|
        invariant Database.ScheduleActivities(db, key, queue, events[i..]) ==
                  Database.ScheduleActivities(old(db), key, queue, events)
      {
        var e := events[i];
        assert events[i..][0] == e && events[i..][1..] == events[i + 1..];
        if e.id in db.activities {
          return Some(ConstraintViolation);
        }
        var q := if e.attributes.queue == "" then queue else e.attributes.queue;
        db := db.(activities := db.activities[e.id := ActivityRow(key, q, e, None, None)]);
      }
      return None;
    }

    /** Removes the coming event of every canceled timer. */
    method RemoveFutureEvents(key: Key, executed: seq<Event>)
      modifies this
      ensures db == Database.RemoveFutureEvents(old(db), key, executed)
      ensures forall row :: row in db.pending <==>
                row in old(db).pending &&
                !(row.key == key && row.event.visibleAt.Some? &&
                  exists e :: e in executed && e.attributes.TimerCanceled? && e.scheduleEventID == row.event.scheduleEventID)
    {
      assert executed[..0] == [] && Database.RemoveFutureEvents(db, key, []) == db;
      for i := 0 to |executed|
        invariant db == Database.RemoveFutureEvents(old(db), key, executed[..i])
      {
        var e := executed[i];
        OneMoreFuture(old(db), key, executed[..i], e);
        assert executed[..i + 1] == executed[..i] + [e];
        if e.attributes.TimerCanceled? {
          db := db.(pending := set row | row in db.pending && !Future(row, key, e.scheduleEventID));
        }
      }
      assert executed[..|executed|] == executed;
    }

    /** Everything a completed task changes in the tables of the instance itself. */
    method Record(t: Task, r: ExecutionResult, now: Time, stickyTimeout: int) returns (error: Option<TxError>)
      requires KeyOf(t.instance) in db.instances
      requires forall e :: e in r.activityEvents ==> e.attributes.ActivityScheduled?
      modifies this
      ensures Did(Database.Record(old(db), t, r, now, stickyTimeout), error, db)
      ensures error.None? ==> TaskRecorded(old(db), t, r, now, stickyTimeout, db)
    {
      RecordMeans(db, t, r, now, stickyTimeout);
      hide TaskRecorded, InsertHistory, InsertPending, Database.ScheduleActivities, Database.RemoveFutureEvents,
           DeletePending,
           Unlock;
      var key := KeyOf(t.instance);
      db := db.(instances := db.instances[key := Unlock(db.instances[key], r.state, now, stickyTimeout)]);
      db := DeletePending(db, key, r.executed);
      error := InsertHistoryEvents(key, r.executed);
      if error.Some? { return; }
      error := ScheduleActivities(key, t.queue, r.activityEvents);
      if error.Some? { return; }
      error := InsertPendingEvents(key, r.timerEvents);
      if error.Some? { return; }
      RemoveFutureEvents(key, r.executed);
    }

    /** Delivers one group of messages. */
    method Deliver(self: Instance, queue: Queue, target: Instance, group: seq<WorkflowEvent>, now: Time, source: nat,
                   i: nat)
      returns (error: Option<TxError>)
      requires group != []
      modifies this
      ensures Did(DeliverGroup(old(db), self, queue, target, group, now, source, i), error, db)
      ensures error.None? ==> Delivers(old(db), self, queue, target, group, db)
    {
      DeliverGroupMeans(db, self, queue, target, group, now, source, i);
      hide Delivers;
      hide InsertPending, Database.CreateInstance;
      var first := group[0].event.attributes;
      if first.ExecutionStarted? {
        error := CreateInstance(if first.queue == "" then queue else first.queue, group[0].instance);
        if error == Some(TxError.InstanceAlreadyExists) {
          error := InsertPendingEvents(KeyOf(self), [ConflictEvent(group[0].instance, now, source, i)]);
          return;
        }
        if error.Some? { return; }
      }
      error := InsertPendingEvents(KeyOf(target), EventsOf(group));
    }
  }

  lemma {:induction false} EveryRow(db: Db, key: Key, queue: Queue, events: seq<Event>)
    requires forall e :: e in events ==> e.attributes.ActivityScheduled?
    ensures
      var tx := Database.ScheduleActivities(db, key, queue, events);
      tx.Commit? ==> forall e :: e in events ==>
        && e.id !in db.activities && e.id in tx.db.activities
        && tx.db.activities[e.id] ==
           ActivityRow(key, if e.attributes.queue == "" then queue else e.attributes.queue, e, None, None)
  {
    var i := Instance(key.instanceID, key.executionID, None, 0);
    assert KeyOf(i) == key;
    ScheduleMeans(db, i, queue, events);
    var tx := Database.ScheduleActivities(db, key, queue, events);
    if tx.Commit? {
      forall e | e in events
        ensures e.id !in db.activities && e.id in tx.db.activities
        ensures tx.db.activities[e.id] ==
                ActivityRow(key, if e.attributes.queue == "" then queue else e.attributes.queue, e, None, None)
      {
        assert Offered(tx.db.activities[e.id], i, queue, e);
      }
    }
  }

  lemma OneMoreFuture(db: Db, key: Key, executed: seq<Event>, e: Event)
    ensures
      var before := Database.RemoveFutureEvents(db, key, executed);
      Database.RemoveFutureEvents(db, key, executed + [e]) ==
      if e.attributes.TimerCanceled?
      then before.(pending := set row | row in before.pending && !Future(row, key, e.scheduleEventID))
      else before
  {
    forall row
      ensures (exists f :: f in executed + [e] && f.attributes.TimerCanceled? && Future(row, key, f.scheduleEventID)) <==>
              (exists f :: f in executed && f.attributes.TimerCanceled? && Future(row, key, f.scheduleEventID)) ||
              (e.attributes.TimerCanceled? && Future(row, key, e.scheduleEventID))
    {
      assert e in executed + [e];
    }
  }

  // ---------- grouping messages by target ----------

  /** EventsByWorkflowInstance: the messages of every target, in order. */
  method EventsByWorkflowInstance(events: seq<WorkflowEvent>) returns (groups: map<Instance, seq<WorkflowEvent>>)
    ensures groups.Keys == set e | e in events :: e.instance
    ensures forall t :: t in groups ==> groups[t] == GroupOf(events, t) && groups[t] != []
    ensures forall t :: t in groups ==> Filtered(events, (e: WorkflowEvent) => e.instance == t, groups[t])
  {
    groups := map[];
    for i := 0 to |events|
      invariant groups.Keys == set e | e in events[..i] :: e.instance
      invariant forall t :: t in groups ==> groups[t] == GroupOf(events[..i], t) && groups[t] != []
    {
      var m := events[i];
      assert events[..i + 1] == events[..i] + [m];
      forall t
        ensures GroupOf(events[..i + 1], t) == GroupOf(events[..i], t) + if m.instance == t then [m] else []
      {
        GroupAppend(events[..i], m, t);
      }
      if m.instance !in groups {
        NotGrouped(events[..i], m.instance);
        groups := groups[m.instance := []];
      }
      groups := groups[m.instance := groups[m.instance] + [m]];
    }
    assert events[..|events|] == events;
    forall t | t in groups
      ensures Filtered(events, (e: WorkflowEvent) => e.instance == t, groups[t])
    {
      GroupIsFiltered(events, t);
    }
  }

  lemma {:induction false} GroupAppend(events: seq<WorkflowEvent>, m: WorkflowEvent, target: Instance)
    ensures GroupOf(events + [m], target) == GroupOf(events, target) + if m.instance == target then [m] else []
    decreases |events|
  {
    if events == [] {
      assert events + [m] == [m] && [m][1..] == [];
    } else {
      assert (events + [m])[1..] == events[1..] + [m];
      GroupAppend(events[1..], m, target);
    }
  }

  lemma {:induction false} NotGrouped(events: seq<WorkflowEvent>, target: Instance)
    requires forall e :: e in events ==> e.instance != target
    ensures GroupOf(events, target) == []
    decreases |events|
  {
    if events != [] {
      NotGrouped(events[1..], target);
    }
  }

  function Appended(db: Db, key: Key, events: seq<Event>): Db {
    if events == [] then db else db.(history := db.history[key := db.HistoryOf(key) + events])
  }

  lemma NoEvents(db: Db, key: Key)
    ensures !HistoryConflict(db, key, []) && !PendingConflict(db, key, [])
  {
  }

  /** Inserting one batch after another fails exactly if inserting all at once does. */
  lemma PendingBatch(db: Db, key: Key, done: seq<Event>, batch: seq<Event>, rest: seq<Event>)
    requires !PendingConflict(db, key, done)
    ensures
      var now := db.(pending := db.pending + RowsFor(key, done));
      && (PendingConflict(now, key, batch) <==> PendingConflict(db, key, done + batch))
      && (PendingConflict(db, key, done + batch) ==> PendingConflict(db, key, done + batch + rest))
      && now.pending + RowsFor(key, batch) == db.pending + RowsFor(key, done + batch)
  {
    hide DistinctIds;
    DistinctSplit(done, batch);
    DistinctSplit(done + batch, rest);
    var now := db.(pending := db.pending + RowsFor(key, done));
    if PendingConflict(now, key, batch) && DistinctIds(done + batch) {
      var row, e :| row in now.pending && e in batch && row.key.instanceID == key.instanceID && row.event.id == e.id;
      assert row in db.pending && e in done + batch;
    }
    if PendingConflict(db, key, done + batch) && DistinctIds(done + batch) {
      var row, e :| row in db.pending && e in done + batch && row.key.instanceID == key.instanceID && row.event.id == e.id;
      assert e in batch && row in now.pending;
      assert e in done + batch + rest;
    } else if PendingConflict(db, key, done + batch) && DistinctIds(batch) {
      var d, e :| d in done && e in batch && d.id == e.id;
      assert PendingRow(key, d) in now.pending;
    }
  }

  /** An event with this id is recorded for the instance. */
  predicate Taken(db: Db, key: Key, id: Name) {
    exists k, f :: k in db.history && f in db.history[k] && k.instanceID == key.instanceID && f.id == id
  }

  lemma ConflictIsTaken(db: Db, key: Key, events: seq<Event>)
    ensures HistoryConflict(db, key, events) <==> !DistinctIds(events) || exists e :: e in events && Taken(db, key, e.id)
  {
  }

  lemma TakenAfter(db: Db, key: Key, done: seq<Event>, id: Name)
    ensures Taken(Appended(db, key, done), key, id) <==> Taken(db, key, id) || exists d :: d in done && d.id == id
  {
    var now := Appended(db, key, done);
    if d :| d in done && d.id == id {
      assert key in now.history && d in now.history[key];
    }
    if Taken(db, key, id) {
      var k, f :| k in db.history && f in db.history[k] && k.instanceID == key.instanceID && f.id == id;
      assert k in now.history && f in now.history[k];
    }
    if Taken(now, key, id) {
      var k, f :| k in now.history && f in now.history[k] && k.instanceID == key.instanceID && f.id == id;
      assert (k in db.history && f in db.history[k]) || f in done;
    }
  }

  lemma HistoryBatch(db: Db, key: Key, done: seq<Event>, batch: seq<Event>, rest: seq<Event>)
    requires !HistoryConflict(db, key, done)
    ensures HistoryConflict(Appended(db, key, done), key, batch) <==> HistoryConflict(db, key, done + batch)
    ensures HistoryConflict(db, key, done + batch) ==> HistoryConflict(db, key, done + batch + rest)
  {
    hide DistinctIds, HistoryConflict, Taken, Appended;
    DistinctSplit(done, batch);
    DistinctSplit(done + batch, rest);
    var now := Appended(db, key, done);
    ConflictIsTaken(db, key, done);
    ConflictIsTaken(now, key, batch);
    ConflictIsTaken(db, key, done + batch);
    ConflictIsTaken(db, key, done + batch + rest);
    forall e | e in batch
      ensures Taken(now, key, e.id) <==> Taken(db, key, e.id) || exists d :: d in done && d.id == e.id
    {
      TakenAfter(db, key, done, e.id);
    }
  }

  lemma AppendBatch(db: Db, key: Key, done: seq<Event>, batch: seq<Event>)
    requires batch != []
    ensures
      var now := Appended(db, key, done);
      now.(history := now.history[key := now.HistoryOf(key) + batch]) == Appended(db, key, done + batch)
  {
    var now := Appended(db, key, done);
    assert now.HistoryOf(key) + batch == db.HistoryOf(key) + (done + batch);
    assert now.history[key := now.HistoryOf(key) + batch] == db.history[key := db.HistoryOf(key) + (done + batch)];
  }

  lemma Reassemble(events: seq<Event>, start: nat, end: nat)
    requires start <= end <= |events|
    ensures events[..start] + events[start..end] == events[..end]
    ensures events[..start] + events[start..end] + events[end..] == events
  {
  }

  // ---------- the backend ----------

  predicate Locked(before: Db, after: Db, w: Worker, queues: set<Queue>, now: Time, until: Time, id: Name,
                   row: ActivityRow) {
    && LockableActivity(before, queues, now, id) && LockActivity(before, w, until, id) == Commit(after)
    && id in after.activities && row == after.activities[id]
  }

  /** A transaction that fails changes nothing. */
  predicate Reflects(tx: Tx, error: Option<TxError>, before: Db, after: Db) {
    match tx
    case Commit(d) => error.None? && after == d
    case Abort(e) => error == Some(e) && after == before
  }

  /** The row may be leased by the worker at this time. */
  predicate Free(row: InstanceRow, w: Worker, queues: set<Queue>, now: Time) {
    && row.state == Active && row.completedAt.None? && row.queue in queues
    && (row.lockedUntil.None? || row.lockedUntil.value < now)
    && (row.stickyUntil.None? || row.stickyUntil.value < now || row.worker == Some(w))
  }

  /** The execution has an event that is visible at this time. */
  predicate HasEvent(db: Db, key: Key, now: Time) {
    exists row :: row in db.pending && row.key == key && (row.event.visibleAt.None? || row.event.visibleAt.value <= now)
  }

  /** The activity may be leased at this time. */
  predicate FreeActivity(row: ActivityRow, queues: set<Queue>, now: Time) {
    row.queue in queues && (row.lockedUntil.None? || row.lockedUntil.value < now)
  }

  lemma LockableMeans(db: Db, w: Worker, queues: set<Queue>, now: Time, key: Key)
    requires key in db.instances
    ensures Lockable(db, w, queues, now, key) <==> Free(db.instances[key], w, queues, now) && HasEvent(db, key, now)
  {
    if HasEvent(db, key, now) {
      var row :| row in db.pending && row.key == key && (row.event.visibleAt.None? || row.event.visibleAt.value <= now);
      assert row in VisibleRows(db, key, now);
    }
    if row :| row in VisibleRows(db, key, now) {
      assert row in db.pending;
    }
  }

  lemma OneInserted(db: Db, key: Key, event: Event)
    ensures
      match InsertPending(db, key, [event])
      case Commit(db') => db' == db.(pending := db.pending + {PendingRow(key, event)})
      case Abort(error) => error == ConstraintViolation
  {
    assert RowsFor(key, [event]) == {PendingRow(key, event)};
  }

  lemma CreateMeans(db: Db, i: Instance, event: Event)
    requires event.attributes.ExecutionStarted?
    ensures
      match Database.CreateWorkflowInstance(db, i, event)
      case Commit(db') =>
        && !Runs(db, i.instanceID)
        && exists mid :: Creates(db, event.attributes.queue, i, mid) && Adds(mid, i, [event], db')
      case Abort(error) => Runs(db, i.instanceID) <==> error == TxError.InstanceAlreadyExists
  {
    hide Creates, Adds, InsertPending, Database.CreateInstance;
    CreateInstanceMeans(db, event.attributes.queue, i);
    if Database.CreateInstance(db, event.attributes.queue, i).Commit? {
      InsertPendingMeans(Database.CreateInstance(db, event.attributes.queue, i).db, i, [event]);
    }
  }

  class Backend {
    var db: Db
    const workerName: Worker
    const settings: Settings

    constructor (workerName: Worker, settings: Settings)
      ensures db == Db(map[], {}, map[], map[]) && this.workerName == workerName && this.settings == settings
    {
      db, this.workerName, this.settings := Db(map[], {}, map[], map[]), workerName, settings;
    }

    method CreateWorkflowInstance(i: Instance, event: Event) returns (error: Option<TxError>)
      requires event.attributes.ExecutionStarted?
      modifies this
      ensures Reflects(Database.CreateWorkflowInstance(old(db), i, event), error, old(db), db)
      ensures error == Some(TxError.InstanceAlreadyExists) <==> Runs(old(db), i.instanceID)
      ensures error.None? ==> exists mid :: Creates(old(db), event.attributes.queue, i, mid) && Adds(mid, i, [event], db)
    {
      CreateMeans(db, i, event);
      hide Creates, Adds;
      hide InsertPending, Database.CreateInstance;
      var tx := new Transaction(db);
      error := tx.CreateInstance(event.attributes.queue, i);
      if error.Some? { return; }
      error := tx.InsertPendingEvents(KeyOf(i), [event]);
      if error.Some? { return; }
      db := tx.db;
    }

    /** Signals the active execution of an instance, whichever the database finds. */
    method SignalWorkflow(instanceID: Name, event: Event) returns (error: Option<TxError>, ghost key: Key)
      modifies this
      ensures Reflects(Database.SignalWorkflow(old(db), instanceID, key, event), error, old(db), db)
      ensures HasActive(old(db), instanceID) ==> IsActiveExecution(old(db), instanceID, key)
      ensures error == Some(InstanceNotFound) <==> !Runs(old(db), instanceID)
      ensures error.None? ==>
                && key in old(db).instances && key.instanceID == instanceID && old(db).instances[key].state == Active
                && db == old(db).(pending := old(db).pending + {PendingRow(key, event)})
    {
      hide InsertPending;
      if !HasActive(db, instanceID) {
        key := Key(instanceID, instanceID);
        return Some(InstanceNotFound), key;
      }
      var found: Key :| found in db.instances && found.instanceID == instanceID && db.instances[found].state == Active;
      key := found;
      OneInserted(db, found, event);
      var tx := new Transaction(db);
      error := tx.InsertPendingEvents(found, [event]);
      if error.Some? { return; }
      db := tx.db;
    }

    method CancelWorkflowInstance(key: Key, event: Event) returns (error: Option<TxError>)
      modifies this
      ensures Reflects(Database.CancelWorkflowInstance(old(db), key, event), error, old(db), db)
      ensures error == Some(InstanceNotFound) <==> key !in old(db).instances
      ensures error.None? ==> db == old(db).(pending := old(db).pending + {PendingRow(key, event)})
    {
      OneInserted(db, key, event);
      hide InsertPending;
      var tx := new Transaction(db);
      if key !in tx.db.instances {
        return Some(InstanceNotFound);
      }
      error := tx.InsertPendingEvents(key, [event]);
      if error.Some? { return; }
      db := tx.db;
    }

    method RemoveInstance(key: Key) returns (error: Option<TxError>)
      modifies this
      ensures Reflects(RemoveWorkflowInstance(old(db), key), error, old(db), db)
      ensures error == Some(InstanceNotFound) <==> key !in old(db).instances
      ensures error == Some(InstanceNotFinished) <==> key in old(db).instances && old(db).instances[key].state == Active
      ensures error.None? <==> key !in db.instances && key in old(db).instances
      ensures error.None? ==>
                && (forall k :: k != key ==> (k in db.instances <==> k in old(db).instances))
                && (forall k :: k in db.instances ==> db.instances[k] == old(db).instances[k])
                && (forall k :: db.HistoryOf(k) == if k == key then [] else old(db).HistoryOf(k))
                && db.pending == old(db).pending && db.activities == old(db).activities
    {
      var tx := new Transaction(db);
      error := tx.RemoveInstance(key);
      if error.Some? { return; }
      db := tx.db;
    }

    /** Locks an instance with visible events, if there is one, and returns its task with all that are visible later. */
    method GetWorkflowTask(queues: set<Queue>, now: Time, until: Time, later: Time) returns (task: Option<Task>)
      requires now <= later
      modifies this
      ensures task.None? ==> db == old(db) && forall key :: key in db.instances ==> !Lockable(db, workerName, queues, now, key)
      ensures task.None? ==>
                forall key :: key in db.instances ==>
                  !Free(db.instances[key], workerName, queues, now) || !HasEvent(db, key, now)
      ensures task.Some? ==>
                var key := KeyOf(task.value.instance);
                && key in old(db.instances) && Free(old(db.instances)[key], workerName, queues, now)
                && HasEvent(old(db), key, now)
                && key in db.instances
                && db.instances[key] == old(db).instances[key].(lockedUntil := Some(until), worker := Some(workerName))
                && db == old(db).(instances := old(db).instances[key := db.instances[key]])
                && LinkedAs(db.instances[key], task.value.instance)
                && task.value.state == Active && task.value.queue == db.instances[key].queue
                && task.value.lastSequenceID ==
                   (if db.HistoryOf(key) == [] then 0 else db.HistoryOf(key)[|db.HistoryOf(key)| - 1].sequenceID)
                && (forall e :: e in task.value.newEvents <==>
                      PendingRow(key, e) in db.pending && (e.visibleAt.None? || e.visibleAt.value <= later))
      ensures task.Some? ==>
                var t := task.value;
                && Lockable(old(db), workerName, queues, now, KeyOf(t.instance))
                && db == LockInstance(old(db), workerName, until, KeyOf(t.instance))
                && t == TaskFor(db, KeyOf(t.instance), t.newEvents)
                && RowsFor(KeyOf(t.instance), t.newEvents) == VisibleRows(old(db), KeyOf(t.instance), later)
                && t.newEvents != []
    {
      forall key | key in db.instances
        ensures Lockable(db, workerName, queues, now, key) <==>
                Free(db.instances[key], workerName, queues, now) && HasEvent(db, key, now)
      {
        LockableMeans(db, workerName, queues, now, key);
      }
      if forall key :: key in db.instances ==> !Lockable(db, workerName, queues, now, key) {
        return None;
      }
      var key: Key :| key in db.instances && Lockable(db, workerName, queues, now, key);
      var tx := new Transaction(db);
      var events := GetPendingEvents(key, later);
      StillVisible(db, key, now, later);
      tx.db := LockInstance(tx.db, workerName, until, key);
      db := tx.db;
      assert KeyOf(InstanceAt(key, db.instances[key])) == key;
      forall e
        ensures e in events <==> PendingRow(key, e) in VisibleRows(old(db), key, later)
      {
        assert e in events <==> PendingRow(key, e) in RowsFor(key, events);
      }
      return Some(TaskFor(db, key, events));
    }

    /** The visible events of an execution, in no particular order. */
    method GetPendingEvents(key: Key, now: Time) returns (events: seq<Event>)
      ensures RowsFor(key, events) == VisibleRows(db, key, now)
      ensures forall e :: e in events <==>
                PendingRow(key, e) in db.pending && (e.visibleAt.None? || e.visibleAt.value <= now)
      ensures forall i, j :: 0 <= i < j < |events| ==> events[i] != events[j]
    {
      events := [];
      var rest := VisibleRows(db, key, now);
      while rest != {}
        invariant RowsFor(key, events) + rest == VisibleRows(db, key, now) && RowsFor(key, events) !! rest
        invariant forall i, j :: 0 <= i < j < |events| ==> events[i] != events[j]
        decreases rest
      {
        var row: PendingRow :| row in rest;
        assert row.key == key && row == PendingRow(key, row.event);
        assert RowsFor(key, events + [row.event]) == RowsFor(key, events) + {row};
        events := events + [row.event];
        rest := rest - {row};
      }
      forall e
        ensures e in events <==> PendingRow(key, e) in VisibleRows(db, key, now)
      {
        assert e in events <==> PendingRow(key, e) in RowsFor(key, events);
      }
    }

    method ExtendWorkflowTask(t: Task, until: Time) returns (error: Option<TxError>)
      modifies this
      ensures Reflects(Database.ExtendWorkflowTask(old(db), workerName, KeyOf(t.instance), until), error, old(db), db)
      ensures error == if Holding(old(db), t.instance, workerName) then None else Some(NotLocked)
      ensures error.None? ==>
                && db == old(db).(instances := db.instances) && db.instances.Keys == old(db).instances.Keys
                && forall key :: key in db.instances ==>
                     db.instances[key] ==
                     if NamedAs(key, t.instance) then old(db).instances[key].(lockedUntil := Some(until))
                     else old(db).instances[key]
    {
      var key := KeyOf(t.instance);
      if key !in db.instances || db.instances[key].worker != Some(workerName) {
        return Some(NotLocked);
      }
      db := db.(instances := db.instances[key := db.instances[key].(lockedUntil := Some(until))]);
      return None;
    }

    /** CompleteWorkflowTask; the groups of messages are delivered in whatever order the map yields. */
    method CompleteWorkflowTask(t: Task, r: ExecutionResult, now: Time, source: nat)
      returns (error: Option<TxError>, ghost order: seq<Instance>)
      requires forall e :: e in r.activityEvents ==> e.attributes.ActivityScheduled?
      modifies this
      ensures IsOrder(order, r.workflowEvents)
      ensures Reflects(Database.CompleteWorkflowTask(old(db), workerName, t, r, settings, now, source, order), error, old(db), db)
      ensures !Holding(old(db), t.instance, workerName) ==> error == Some(NotLocked)
      ensures error.None? ==> TaskCompleted(old(db), t, r, settings, now, db)
    {
      forall order | IsOrder(order, r.workflowEvents)
        ensures
          var tx := Database.CompleteWorkflowTask(db, workerName, t, r, settings, now, source, order);
          && (!Holding(db, t.instance, workerName) ==> tx == Abort(NotLocked))
          && (tx.Commit? ==> TaskCompleted(db, t, r, settings, now, tx.db))
      {
        CompleteMeans(db, workerName, t, r, settings, now, source, order);
      }
      hide TaskCompleted, TaskRecorded, Database.Record, DeliverGroups, IsOrder, RemoveWorkflowInstance;
      var key := KeyOf(t.instance);
      var tx := new Transaction(db);
      if key !in tx.db.instances || tx.db.instances[key].worker != Some(workerName) {
        order := AnyOrder(r.workflowEvents);
        return Some(NotLocked), order;
      }
      error := tx.Record(t, r, now, settings.stickyTimeout);
      if error.Some? {
        order := AnyOrder(r.workflowEvents);
        return;
      }
      ghost var recorded := tx.db;
      error, order := DeliverAll(tx, t, r.workflowEvents, now, source);
      if error.Some? { return; }
      if settings.removeContinuedAsNew && r.state == InstanceState.ContinuedAsNew {
        error := tx.RemoveInstance(key);
        if error.Some? { return; }
      }
      db := tx.db;
    }

    method DeliverAll(tx: Transaction, t: Task, events: seq<WorkflowEvent>, now: Time, source: nat)
      returns (error: Option<TxError>, ghost order: seq<Instance>)
      modifies tx
      ensures IsOrder(order, events) && forall target :: target in order ==> GroupOf(events, target) != []
      ensures Did(DeliverGroups(old(tx.db), t.instance, t.queue, order, events, now, source, 0), error, tx.db)
    {
      hide DeliverGroup, Delivers, GroupOf;
      var groups := EventsByWorkflowInstance(events);
      var targets := Range(groups);
      order := targets;
      OrderHasGroups(targets, events);
      for i := 0 to |targets|
        invariant DeliverGroups(tx.db, t.instance, t.queue, targets, events, now, source, i) ==
                  DeliverGroups(old(tx.db), t.instance, t.queue, targets, events, now, source, 0)
      {
        error := tx.Deliver(t.instance, t.queue, targets[i], groups[targets[i]], now, source, i);
        if error.Some? { return; }
      }
      error := None;
    }

    /** The keys of the map, in whatever order they are visited. */
    method Range(groups: map<Instance, seq<WorkflowEvent>>) returns (order: seq<Instance>)
      ensures forall t :: t in order <==> t in groups
      ensures forall i, j :: 0 <= i < j < |order| ==> order[i] != order[j]
    {
      order := [];
      var rest := groups.Keys;
      while rest != {}
        invariant forall t :: t in groups <==> t in order || t in rest
        invariant forall t :: t in order ==> t !in rest
        invariant forall i, j :: 0 <= i < j < |order| ==> order[i] != order[j]
        decreases rest
      {
        var target: Instance :| target in rest;
        order := order + [target];
        rest := rest - {target};
      }
    }

    /** Locks an activity; its instance must still exist. */
    method GetActivityTask(queues: set<Queue>, now: Time, until: Time)
      returns (task: Option<ActivityRow>, error: Option<TxError>)
      modifies this
      ensures task.None? && error.None? ==>
                db == old(db) && forall id :: id in db.activities ==> !LockableActivity(db, queues, now, id)
      ensures task.None? && error.None? ==>
                forall id :: id in db.activities ==> !FreeActivity(db.activities[id], queues, now)
      ensures task.Some? ==>
                error.None? && exists id :: Locked(old(db), db, workerName, queues, now, until, id, task.value)
      ensures task.Some? ==>
                exists id :: id in old(db.activities) && FreeActivity(old(db.activities)[id], queues, now) &&
                             id in db.activities && db.activities[id] == task.value &&
                             task.value == old(db.activities)[id].(lockedUntil := Some(until), worker := Some(workerName)) &&
                             db == old(db).(activities := old(db).activities[id := task.value])
      ensures error.Some? ==> db == old(db)
    {
      if forall id :: id in db.activities ==> !LockableActivity(db, queues, now, id) {
        return None, None;
      }
      var id: Name :| id in db.activities && LockableActivity(db, queues, now, id);
      var row := db.activities[id];
      if !(exists k :: k in db.instances && k.instanceID == row.key.instanceID) {
        return None, Some(InstanceNotFound);
      }
      db := db.(activities := db.activities[id := row.(lockedUntil := Some(until), worker := Some(workerName))]);
      assert Locked(old(db), db, workerName, queues, now, until, id, db.activities[id]);
      return Some(db.activities[id]), None;
    }

    /** Replaces the activity by its result. */
    method CompleteActivityTask(key: Key, id: Name, result: Event) returns (error: Option<TxError>)
      modifies this
      ensures Reflects(Database.CompleteActivityTask(old(db), workerName, key, id, result), error, old(db), db)
      ensures error == Some(NotLocked) <==>
              !(id in old(db).activities && old(db).activities[id].key == key &&
                old(db).activities[id].worker == Some(workerName))
      ensures error.None? ==>
                && db.instances == old(db).instances && db.history == old(db).history
                && db.pending == old(db).pending + {PendingRow(key, result)}
                && (forall n :: n in db.activities <==> n in old(db).activities && n != id)
                && (forall n :: n in db.activities ==> db.activities[n] == old(db).activities[n])
    {
      OneInserted(db.(activities := db.activities - {id}), key, result);
      hide InsertPending;
      var tx := new Transaction(db);
      if id !in tx.db.activities || tx.db.activities[id].key != key || tx.db.activities[id].worker != Some(workerName) {
        return Some(NotLocked);
      }
      tx.db := tx.db.(activities := tx.db.activities - {id});
      error := tx.InsertPendingEvents(key, [result]);
      if error.Some? { return; }
      db := tx.db;
    }

    /** The recorded events after `last`. */
    method GetWorkflowInstanceHistory(key: Key, last: int) returns (events: seq<Event>)
      ensures events == EventsAfter(db.HistoryOf(key), last)
      ensures Filtered(db.HistoryOf(key), (e: Event) => e.sequenceID > last, events)
    {
      var h := if key in db.history then db.history[key] else [];
      events := [];
      for i := 0 to |h|
        invariant events == EventsAfter(h[..i], last)
      {
        assert h[..i + 1] == h[..i] + [h[i]];
        AfterAppend(h[..i], h[i], last);
        if h[i].sequenceID > last {
          events := events + [h[i]];
        }
      }
      assert h[..|h|] == h;
      AfterIsFiltered(h, last);
    }
  }

  ghost function AnyOrder(events: seq<WorkflowEvent>): (order: seq<Instance>)
    ensures IsOrder(order, events)
  {
    if events == [] then []
    else
      var rest := AnyOrder(events[1..]);
      if events[0].instance in rest then rest else [events[0].instance] + rest
  }

  lemma {:induction false} AfterAppend(h: seq<Event>, e: Event, last: int)
    ensures EventsAfter(h + [e], last) == EventsAfter(h, last) + if e.sequenceID > last then [e] else []
    decreases |h|
  {
    if h == [] {
      assert h + [e] == [e] && [e][1..] == [];
    } else {
      assert (h + [e])[1..] == h[1..] + [e];
      AfterAppend(h[1..], e, last);
    }
  }

  lemma StillVisible(db: Db, key: Key, now: Time, later: Time)
    requires now <= later && VisibleRows(db, key, now) != {}
    ensures VisibleRows(db, key, later) != {}
  {
    var row :| row in VisibleRows(db, key, now);
    assert row in VisibleRows(db, key, later);
  }
}
