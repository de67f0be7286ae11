/**
  The first half of completing a workflow task: the tables of the instance itself. Nothing
  is lost and nothing done twice; what is then owed to other executions is exactly what the
  task's messages carry.
 */
module Recording {
  import opened Basics
  import opened History
  import opened Commands
  import opened Execution
  import opened Histories
  import opened Contract
  import opened Decisions
  import opened Database
  import opened Ledgers

  /** What a worker reports: the result, which of the received events it executed and the commands behind it. */
  datatype Report = Report(task: Task, result: ExecutionResult, now: Time, source: nat, count: nat, commands: seq<Command>)
  {
    function Key(): Key {
      KeyOf(task.instance)
    }

    function Decisions(): CommandResult {
      Collect(commands, now, source)
    }
  }

  /** No identifier of this source is in use. */
  predicate Fresh(g: Ledger, source: nat) {
    && (forall n :: n in g.owner && n.Drawn? ==> n.source != source)
    && (forall n :: n in g.executions && n.Drawn? ==> n.source != source)
  }

  /** The instance is still active, and what the task was given is still pending. */
  predicate Held(db: Db, t: Task) {
    var key := KeyOf(t.instance);
    && key in db.instances && db.instances[key].state == Active && db.instances[key].parent == LinkOf(t.instance)
    && DistinctIds(t.newEvents)
    && (forall e :: e in t.newEvents ==> PendingRow(key, e) in db.pending)
  }

  /** An honest report about the present history. */
  predicate Timely(db: Db, g: Ledger, f: Report) {
    && Held(db, f.task) && Fresh(g, f.source)
    && Honest(db.HistoryOf(f.Key()), f.task, f.result, f.now, f.source, f.count, f.commands)
  }

  // ---------- the executed events ----------

  /** Executed events are the task started event, received events, then decisions. */
  lemma ExecutedAt(db: Db, g: Ledger, f: Report, j: nat)
    requires Timely(db, g, f) && j < |f.result.executed|
    ensures
      var e, n := f.result.executed[j], |db.HistoryOf(f.Key())| + j + 1;
      && e.sequenceID == n
      && if j >= f.count then
           j - f.count < |f.Decisions().events| && e == f.Decisions().events[j - f.count].(sequenceID := n)
         else if j == 0 then e.attributes.TaskStarted? && e.id == Drawn(f.source, ForTask, 0)
         else
           j - 1 < |f.task.newEvents| && e == f.task.newEvents[j - 1].(sequenceID := n) &&
           PendingRow(f.Key(), f.task.newEvents[j - 1]) in db.pending
  {
    hide Decided, EndsWith, Collect;
    var received := ToExecute(f.task, f.now, f.source);
    assert (received[..f.count] + f.Decisions().events)[j] ==
           if j < f.count then received[j] else f.Decisions().events[j - f.count];
  }

  /** Where the executed events end up. */
  lemma ReceivedIndex(db: Db, g: Ledger, f: Report, j: nat)
    requires Timely(db, g, f) && 0 < j < f.count
    ensures j < |f.result.executed| && j - 1 < |f.task.newEvents|
    ensures f.result.executed[j] == f.task.newEvents[j - 1].(sequenceID := |db.HistoryOf(f.Key())| + j + 1)
  {
    hide Decided, EndsWith, Collect;
    ExecutedAt(db, g, f, j);
  }

  lemma DecidedIndex(db: Db, g: Ledger, f: Report, i: nat)
    requires Timely(db, g, f) && i < |f.Decisions().events|
    ensures f.count + i < |f.result.executed|
    ensures f.result.executed[f.count + i] == f.Decisions().events[i].(sequenceID := |db.HistoryOf(f.Key())| + f.count + i + 1)
  {
    hide Decided, EndsWith, Collect;
    ExecutedAt(db, g, f, f.count + i);
  }

  /** The id of an executed event: owned by the instance, or new. */
  lemma ExecutedId(db: Db, g: Ledger, f: Report, j: nat)
    requires Timely(db, g, f) && Owned(db, g) && j < |f.result.executed|
    ensures
      var n := f.result.executed[j].id;
      if j >= f.count then
        n.Drawn? && n.source == f.source && n.role == ForEvent && n !in g.owner &&
        n == f.Decisions().events[j - f.count].id
      else if j == 0 then n == Drawn(f.source, ForTask, 0) && n !in g.owner
      else
        n in g.owner && g.owner[n] == f.Key() && j - 1 < |f.task.newEvents| && n == f.task.newEvents[j - 1].id
  {
    hide Honest, Decided, Collect, DistinctIds;
    ExecutedAt(db, g, f, j);
    if j >= f.count {
      HonestIsDecided(db, g, f);
      EventsFromCommands(f.commands, f.now, f.source);
    }
  }

  lemma HonestIsDecided(db: Db, g: Ledger, f: Report)
    requires Timely(db, g, f)
    ensures Decided(f.commands, db.HistoryOf(f.Key()), f.task.instance, f.source) && Numbered(f.commands)
    ensures
      var r, c := f.result, f.Decisions();
      r.state == c.state && r.activityEvents == c.activityEvents && r.timerEvents == c.timerEvents &&
      r.workflowEvents == c.workflowEvents
    ensures f.count < 1 + |f.task.newEvents| ==> EndsWith(f.commands)
  {
    hide SoundCommand, Collect;
  }

  lemma ExecutedDistinct(db: Db, g: Ledger, f: Report)
    requires Timely(db, g, f) && Owned(db, g)
    ensures DistinctIds(f.result.executed)
  {
    hide Honest, Decided, Collect, Owned, Fresh;
    HonestIsDecided(db, g, f);
    CollectDistinct(f.commands, f.now, f.source);
    forall i, j | 0 <= i < j < |f.result.executed|
      ensures f.result.executed[i].id != f.result.executed[j].id
    {
      ExecutedId(db, g, f, i);
      ExecutedId(db, g, f, j);
      ExecutedAt(db, g, f, i);
      ExecutedAt(db, g, f, j);
    }
  }

  /** A task always executes something, if only the end of the execution. */
  lemma SomethingExecuted(db: Db, g: Ledger, f: Report)
    requires Timely(db, g, f)
    ensures f.result.executed != []
  {
    hide Collect, Decided, EndsWith;
    HonestIsDecided(db, g, f);
    FinalIsLast(f.commands, db.HistoryOf(f.Key()), f.task.instance, f.source, f.now);
    if f.Decisions().events != [] {
      DecidedIndex(db, g, f, 0);
    }
  }

  // ---------- the transaction's effect ----------

  predicate InTable(before: map<Name, ActivityRow>, after: map<Name, ActivityRow>, key: Key, events: seq<Event>) {
    && after.Keys == before.Keys + IdsOf(events)
    && (forall n :: n in before ==> after[n] == before[n])
    && (forall e :: e in events ==> after[e.id].key == key && after[e.id].event == e)
  }

  lemma {:induction false} ScheduledRows(db: Db, key: Key, queue: Queue, events: seq<Event>)
    requires forall e :: e in events ==> e.attributes.ActivityScheduled? && e.id !in db.activities
    requires DistinctIds(events)
    ensures
      var s := ScheduleActivities(db, key, queue, events);
      s.Commit? && s.db == db.(activities := s.db.activities) && InTable(db.activities, s.db.activities, key, events)
    decreases |events|
  {
    if events != [] {
      var e := events[0];
      var q := if e.attributes.queue == "" then queue else e.attributes.queue;
      var next := db.(activities := db.activities[e.id := ActivityRow(key, q, e, None, None)]);
      ScheduledRows(next, key, queue, events[1..]);
      assert IdsOf(events) == {e.id} + IdsOf(events[1..]);
    }
  }

  predicate IsExecuted(row: PendingRow, f: Report) {
    row.key == f.Key() && exists e :: e in f.result.executed && e.id == row.event.id
  }

  /** The row is the coming event of a timer that the task canceled. */
  predicate IsCanceled(row: PendingRow, f: Report) {
    exists e :: e in f.result.executed && e.attributes.TimerCanceled? && Future(row, f.Key(), e.scheduleEventID)
  }

  predicate Remains(row: PendingRow, db: Db, f: Report) {
    row in db.pending && !IsExecuted(row, f) && !IsCanceled(row, f)
  }

  /** `after` is `db` with the task recorded. */
  ghost predicate RecordedBy(db: Db, after: Db, f: Report, at: Time, stickyTimeout: int)
    requires f.Key() in db.instances
  {
    var key := f.Key();
    && after.instances == db.instances[key := Unlock(db.instances[key], f.result.state, at, stickyTimeout)]
    && after.history == db.history[key := db.HistoryOf(key) + f.result.executed]
    && InTable(db.activities, after.activities, key, f.result.activityEvents)
    && (forall row :: row in after.pending <==> Remains(row, db, f) || row in RowsFor(key, f.result.timerEvents))
  }

  lemma ActivitiesMean(db: Db, g: Ledger, f: Report)
    requires Timely(db, g, f)
    ensures forall e :: e in f.result.activityEvents ==>
              e in f.Decisions().events && e.attributes.ActivityScheduled? && e.id !in g.owner &&
              e.scheduleEventID !in Started(db.HistoryOf(f.Key()))
    ensures DistinctIds(f.result.activityEvents)
  {
    hide Honest, Decided, Collect, Held, Started, Ids;
    HonestIsDecided(db, g, f);
    ActivitiesAmongEvents(f.commands, f.now, f.source);
    CollectDistinct(f.commands, f.now, f.source);
    EventsFromCommands(f.commands, f.now, f.source);
    forall e | e in f.result.activityEvents
      ensures e.scheduleEventID !in Started(db.HistoryOf(f.Key()))
    {
      DecisionMeans(f.commands, db.HistoryOf(f.Key()), f.task.instance, f.source, f.now, e);
    }
  }

  lemma TimersMean(db: Db, g: Ledger, f: Report)
    requires Timely(db, g, f)
    ensures Insertable(g, f.result.timerEvents)
    ensures forall e :: e in f.result.timerEvents ==>
              e.attributes.TimerFired? && e.id.Drawn? && e.id.source == f.source && e.id.role == ForMessage &&
              e.id.number == e.scheduleEventID &&
              exists s :: s in f.Decisions().events && s.attributes.TimerScheduled? &&
                          s.scheduleEventID == e.scheduleEventID && DueAsStarted(s, e)
  {
    hide Honest, Decided, Collect, Held, DueAsStarted;
    HonestIsDecided(db, g, f);
    CollectDistinct(f.commands, f.now, f.source);
    forall e | e in f.result.timerEvents
      ensures FromCommand(f.commands, e.id, f.source, ForMessage) && e.id.number == e.scheduleEventID
      ensures e.attributes.TimerFired? && e.visibleAt.Some?
      ensures exists s :: s in f.Decisions().events && s.attributes.TimerScheduled? &&
                          s.scheduleEventID == e.scheduleEventID && DueAsStarted(s, e)
    {
      TimerMeans(f.commands, db.HistoryOf(f.Key()), f.task.instance, f.source, f.now, e);
    }
  }

  /** The timers a task cancels were started before it. */
  lemma CanceledMeans(db: Db, g: Ledger, f: Report, e: Event)
    requires Timely(db, g, f) && Owned(db, g) && Deliveries(db) && e in f.result.executed && e.attributes.TimerCanceled?
    ensures e.scheduleEventID in Ids(db.HistoryOf(f.Key()), TimerStart)
    ensures e.scheduleEventID !in Ids(db.HistoryOf(f.Key()), TimerStop)
  {
    hide Honest, Decided, Collect, Ids, Owned;
    HonestIsDecided(db, g, f);
    var j :| 0 <= j < |f.result.executed| && f.result.executed[j] == e;
    ExecutedAt(db, g, f, j);
    if j >= f.count {
      DecisionMeans(f.commands, db.HistoryOf(f.Key()), f.task.instance, f.source, f.now, f.Decisions().events[j - f.count]);
    }
  }

  lemma NoHistoryConflict(db: Db, pending: set<PendingRow>, instances: map<Key, InstanceRow>, g: Ledger, f: Report)
    requires Timely(db, g, f) && Owned(db, g) && Once(db)
    ensures !HistoryConflict(db.(pending := pending, instances := instances), f.Key(), f.result.executed)
  {
    hide Honest;
    ExecutedDistinct(db, g, f);
    forall k, o, e | k in db.history && o in db.history[k] && e in f.result.executed
      ensures o.id != e.id
    {
      var j :| 0 <= j < |f.result.executed| && f.result.executed[j] == e;
      ExecutedId(db, g, f, j);
      ExecutedAt(db, g, f, j);
    }
  }

  /** A timely report is recorded; no key clashes. */
  lemma RecordCommits(db: Db, g: Ledger, f: Report, at: Time, stickyTimeout: int)
    requires Structure(db, g) && Timely(db, g, f)
    ensures forall e :: e in f.result.activityEvents ==> e.attributes.ActivityScheduled?
    ensures
      var r := Record(db, f.task, f.result, at, stickyTimeout);
      r.Commit? && RecordedBy(db, r.db, f, at, stickyTimeout)
  {
    hide Honest, Started, Ids, HistoryConflict, PendingConflict, DistinctIds, Once, Deliveries, Sequenced, OneActive,
         Finality,
         Known, Accounted, Owned, Fresh, Held, InTable, RowsFor, Future, DeletePending, RemoveFutureEvents, Timely;
    var key := f.Key();
    assert key in db.instances by { HeldKey(db, g, f); }
    ActivitiesMean(db, g, f);
    SomethingExecuted(db, g, f);
    var unlocked := db.(instances := db.instances[key := Unlock(db.instances[key], f.result.state, at, stickyTimeout)]);
    var deleted := DeletePending(unlocked, key, f.result.executed);
    OnlyPending(unlocked, key, f.result.executed);
    NoHistoryConflict(db, deleted.pending, deleted.instances, g, f);
    assert deleted == db.(pending := deleted.pending, instances := deleted.instances);
    var h := deleted.(history := deleted.history[key := deleted.HistoryOf(key) + f.result.executed]);
    NotScheduledYet(db, g, f.result.activityEvents);
    ScheduledRows(h, key, f.task.queue, f.result.activityEvents);
    var scheduled := ScheduleActivities(h, key, f.task.queue, f.result.activityEvents).db;
    NoTimerConflict(db, scheduled, g, f);
    OnlyPending(scheduled.(pending := scheduled.pending + RowsFor(key, f.result.timerEvents)), key, f.result.executed);
    RemainingRows(db, g, f, unlocked, scheduled);
  }

  lemma OnlyPending(db: Db, key: Key, events: seq<Event>)
    ensures
      var deleted := DeletePending(db, key, events);
      deleted == db.(pending := deleted.pending) && deleted.pending <= db.pending
    ensures
      var fewer := RemoveFutureEvents(db, key, events);
      fewer == db.(pending := fewer.pending)
  {
  }

  lemma HeldKey(db: Db, g: Ledger, f: Report)
    requires Timely(db, g, f)
    ensures f.Key() in db.instances && db.instances[f.Key()].state == Active &&
            db.instances[f.Key()].parent == LinkOf(f.task.instance)
  {
    hide Honest, Fresh;
  }

  lemma NotScheduledYet(db: Db, g: Ledger, events: seq<Event>)
    requires Owned(db, g) && forall e :: e in events ==> e.id !in g.owner
    ensures forall e :: e in events ==> e.id !in db.activities
  {
  }

  lemma NoTimerConflict(db: Db, after: Db, g: Ledger, f: Report)
    requires Timely(db, g, f) && Owned(db, g) && after.pending <= db.pending
    ensures !PendingConflict(after, f.Key(), f.result.timerEvents)
  {
    hide Honest, Held;
    TimersMean(db, g, f);
  }

  lemma RemainingRows(db: Db, g: Ledger, f: Report, unlocked: Db, scheduled: Db)
    requires Timely(db, g, f) && Owned(db, g) && Deliveries(db) && unlocked.pending == db.pending
    requires scheduled.pending == DeletePending(unlocked, f.Key(), f.result.executed).pending
    ensures
      var timed := scheduled.(pending := scheduled.pending + RowsFor(f.Key(), f.result.timerEvents));
      forall row :: row in RemoveFutureEvents(timed, f.Key(), f.result.executed).pending <==>
        Remains(row, db, f) || row in RowsFor(f.Key(), f.result.timerEvents)
  {
    hide Honest, Ids, Started, Held;
    forall row | row in RowsFor(f.Key(), f.result.timerEvents)
      ensures !IsCanceled(row, f)
    {
      NewTimersStay(db, g, f, row);
    }
  }

  lemma NewTimersStay(db: Db, g: Ledger, f: Report, row: PendingRow)
    requires Timely(db, g, f) && Owned(db, g) && Deliveries(db) && row in RowsFor(f.Key(), f.result.timerEvents)
    ensures !IsCanceled(row, f)
    ensures row.event.scheduleEventID !in Ids(db.HistoryOf(f.Key()), TimerStart)
  {
    hide Honest, Ids, Held, Collect, Decided, Owned, Deliveries;
    TimersMean(db, g, f);
    HonestIsDecided(db, g, f);
    var s :| s in f.Decisions().events && s.attributes.TimerScheduled? && s.scheduleEventID == row.event.scheduleEventID;
    DecisionMeans(f.commands, db.HistoryOf(f.Key()), f.task.instance, f.source, f.now, s);
    if IsCanceled(row, f) {
      var e :| e in f.result.executed && e.attributes.TimerCanceled? && Future(row, f.Key(), e.scheduleEventID);
      CanceledMeans(db, g, f, e);
    }
  }
}
