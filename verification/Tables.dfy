/** What the transactions do to the tables, row by row and field by field. */
module Tables {
  import opened Basics
  import opened History
  import opened Execution
  import opened Database

  // ---------- instances ----------

  /** An execution of the instance is active. */
  predicate Runs(db: Db, instanceID: Name) {
    exists k :: k in db.instances && k.instanceID == instanceID && db.instances[k].state == Active
  }

  predicate NamedAs(key: Key, i: Instance) {
    key.instanceID == i.instanceID && key.executionID == i.executionID
  }

  /** The row refers to the parent of the instance. */
  predicate LinkedAs(row: InstanceRow, i: Instance) {
    match i.parent
    case None => row.parent.None?
    case Some(parent) =>
      row.parent.Some? && NamedAs(row.parent.value.parent, parent) && row.parent.value.eventID == i.parentEventID
  }

  /** A new execution of `i`, and nothing else. */
  ghost predicate Creates(db: Db, queue: Queue, i: Instance, db': Db) {
    exists key, row: InstanceRow {:trigger db.instances[key := row]} ::
      && NamedAs(key, i) && key !in db.instances
      && Newborn(row) && row.queue == queue && LinkedAs(row, i)
      && db' == db.(instances := db.instances[key := row])
  }

  /** A new execution is refused exactly if one of the instance is active, or it exists already. */
  lemma CreateInstanceMeans(db: Db, queue: Queue, i: Instance)
    ensures
      match CreateInstance(db, queue, i)
      case Commit(db') => !Runs(db, i.instanceID) && Creates(db, queue, i, db')
      case Abort(error) =>
        if Runs(db, i.instanceID) then error == TxError.InstanceAlreadyExists
        else error == ConstraintViolation && exists key :: key in db.instances && NamedAs(key, i)
  {
    var row := InstanceRow(queue, LinkOf(i), Active, None, None, None, None);
    var key := KeyOf(i);
    assert NamedAs(key, i);
    if CreateInstance(db, queue, i).Commit? {
      assert CreateInstance(db, queue, i).db == db.(instances := db.instances[key := row]);
    }
  }

  // ---------- pending events ----------

  /** The events are pending for the instance now, and were not; nothing else changed. */
  ghost predicate Adds(db: Db, i: Instance, events: seq<Event>, db': Db) {
    && db'.instances == db.instances && db'.history == db.history && db'.activities == db.activities
    && (forall row :: row in db'.pending <==> row in db.pending || (NamedAs(row.key, i) && row.event in events))
  }

  lemma InsertPendingMeans(db: Db, i: Instance, events: seq<Event>)
    ensures
      var tx := InsertPending(db, KeyOf(i), events);
      if (forall j, k :: 0 <= j < k < |events| ==> events[j].id != events[k].id) &&
         (forall row, e :: row in db.pending && e in events && row.key.instanceID == i.instanceID ==> row.event.id != e.id)
      then tx.Commit? && Adds(db, i, events, tx.db)
      else tx == Abort(ConstraintViolation)
  {
    forall row: PendingRow
      ensures row in RowsFor(KeyOf(i), events) <==> NamedAs(row.key, i) && row.event in events
    {
      if NamedAs(row.key, i) && row.event in events {
        assert row == PendingRow(KeyOf(i), row.event);
      }
    }
  }

  // ---------- messages ----------

  /** The sender is told that a sub-workflow it started failed, as its instance exists already. */
  predicate Refuses(self: Instance, target: Instance, row: PendingRow) {
    && NamedAs(row.key, self) && row.event.attributes == SubWorkflowFailed(Error.InstanceAlreadyExists)
    && row.event.scheduleEventID == target.parentEventID && row.event.visibleAt.None?
  }

  /**
    What delivering the messages for one execution does: if they start it, it exists afterwards, on the queue
    asked for, or else the sender's, and has them pending; but if an execution of its instance is
    active, the sender has exactly one more event, which says so. Messages to others are pending for them.
   */
  ghost predicate Delivers(db: Db, self: Instance, queue: Queue, target: Instance, group: seq<WorkflowEvent>, db': Db)
    requires group != []
  {
    match group[0].event.attributes
    case ExecutionStarted(own, _, _) =>
      if Runs(db, group[0].instance.instanceID) then
        exists row :: Refuses(self, group[0].instance, row) && row !in db.pending && db' == db.(pending := db.pending + {row})
      else
        exists mid ::
          Creates(db, if own == "" then queue else own, group[0].instance, mid) && Adds(mid, target, EventsOf(group), db')
    case _ => Adds(db, target, EventsOf(group), db')
  }

  lemma DeliverGroupMeans(db: Db, self: Instance, queue: Queue, target: Instance, group: seq<WorkflowEvent>, now: Time,
                          source: nat, i: nat)
    requires group != []
    ensures
      var tx := DeliverGroup(db, self, queue, target, group, now, source, i);
      tx.Commit? ==> Delivers(db, self, queue, target, group, tx.db)
  {
    hide CreateInstance, InsertPending, Creates, Adds;
    var first := group[0];
    var tx := DeliverGroup(db, self, queue, target, group, now, source, i);
    if tx.Commit? {
      if first.event.attributes.ExecutionStarted? {
        var q := if first.event.attributes.queue == "" then queue else first.event.attributes.queue;
        CreateInstanceMeans(db, q, first.instance);
        if CreateInstance(db, q, first.instance).Commit? {
          InsertPendingMeans(CreateInstance(db, q, first.instance).db, target, EventsOf(group));
        } else {
          RefusalInserted(db, self, first.instance, now, source, i);
        }
      } else {
        InsertPendingMeans(db, target, EventsOf(group));
      }
    }
  }

  lemma RefusalInserted(db: Db, self: Instance, target: Instance, now: Time, source: nat, i: nat)
    requires InsertPending(db, KeyOf(self), [ConflictEvent(target, now, source, i)]).Commit?
    ensures
      var db' := InsertPending(db, KeyOf(self), [ConflictEvent(target, now, source, i)]).db;
      exists row :: Refuses(self, target, row) && row !in db.pending && db' == db.(pending := db.pending + {row})
  {
    var e := ConflictEvent(target, now, source, i);
    var row := PendingRow(KeyOf(self), e);
    assert RowsFor(KeyOf(self), [e]) == {row};
    assert e in [e];
    assert Refuses(self, target, row);
  }

  // ---------- all messages of a task ----------

  predicate IsStart(w: WorkflowEvent) {
    w.event.attributes.ExecutionStarted?
  }

  /** A row that delivering added: a message to its target, or a refusal to the sender. */
  ghost predicate Carried(self: Instance, ws: seq<WorkflowEvent>, row: PendingRow) {
    (exists w :: w in ws && NamedAs(row.key, w.instance) && row.event == w.event) ||
    (exists w :: w in ws && IsStart(w) && Refuses(self, w.instance, row))
  }

  /** Nothing but rows that carry messages, and executions that messages start, is added; nothing is taken away. */
  ghost predicate OnlyAdds(db: Db, self: Instance, ws: seq<WorkflowEvent>, db': Db) {
    && db'.history == db.history && db'.activities == db.activities && db.pending <= db'.pending
    && (forall row :: row in db'.pending && row !in db.pending ==> Carried(self, ws, row))
    && (forall k :: k in db.instances ==> k in db'.instances && db'.instances[k] == db.instances[k])
    && (forall k :: k in db'.instances && k !in db.instances ==>
          Newborn(db'.instances[k]) &&
          exists w :: w in ws && IsStart(w) && NamedAs(k, w.instance) && LinkedAs(db'.instances[k], w.instance))
  }

  lemma GroupAdds(db: Db, self: Instance, queue: Queue, target: Instance, ws: seq<WorkflowEvent>, db': Db)
    requires GroupOf(ws, target) != [] && Delivers(db, self, queue, target, GroupOf(ws, target), db')
    ensures OnlyAdds(db, self, ws, db')
  {
    hide EventsOf, Delivers, Creates, Adds, OnlyAdds;
    var group := GroupOf(ws, target);
    GroupMember(ws, target);
    assert group[0] in group;
    if IsStart(group[0]) && Runs(db, group[0].instance.instanceID) {
      RefusalAdds(db, self, queue, target, group, ws, db');
    } else {
      var mid := StartedFirst(db, queue, target, group, self, db');
      MessagesAdd(db, self, mid, target, group, ws, db');
    }
  }

  lemma RefusalAdds(db: Db, self: Instance, queue: Queue, target: Instance, group: seq<WorkflowEvent>,
                    ws: seq<WorkflowEvent>, db': Db)
    requires group != [] && group[0] in ws && Delivers(db, self, queue, target, group, db')
    requires IsStart(group[0]) && Runs(db, group[0].instance.instanceID)
    ensures OnlyAdds(db, self, ws, db')
  {
    hide Refuses, Runs;
    var row :| Refuses(self, group[0].instance, row) && row !in db.pending && db' == db.(pending := db.pending + {row});
    assert Carried(self, ws, row);
  }

  lemma MessagesAdd(db: Db, self: Instance, mid: Db, target: Instance, group: seq<WorkflowEvent>,
                    ws: seq<WorkflowEvent>,
                    db': Db)
    requires group != [] && forall w :: w in group ==> w in ws && w.instance == target
    requires Adds(mid, target, EventsOf(group), db') && mid.pending == db.pending && mid.history == db.history
    requires mid.activities == db.activities
    requires forall k :: k in db.instances ==> k in mid.instances && mid.instances[k] == db.instances[k]
    requires forall k :: k in mid.instances && k !in db.instances ==>
               IsStart(group[0]) && NamedAs(k, group[0].instance) && LinkedAs(mid.instances[k], group[0].instance) &&
               Newborn(mid.instances[k])
    ensures OnlyAdds(db, self, ws, db')
  {
    hide EventsOf, LinkedAs, Newborn, IsStart, Refuses;
    assert group[0] in group;
    forall row | row in db'.pending && row !in db.pending
      ensures Carried(self, ws, row)
    {
      var j :| 0 <= j < |EventsOf(group)| && EventsOf(group)[j] == row.event;
      assert group[j] in group && row.event == group[j].event;
    }
  }

  /** Without a refusal: first the execution is created, if the messages start it, then they are pending. */
  lemma StartedFirst(db: Db, queue: Queue, target: Instance, group: seq<WorkflowEvent>, self: Instance, db': Db)
    returns (mid: Db)
    requires group != [] && Delivers(db, self, queue, target, group, db')
    requires !(IsStart(group[0]) && Runs(db, group[0].instance.instanceID))
    ensures Adds(mid, target, EventsOf(group), db') && mid.pending == db.pending && mid.history == db.history
    ensures mid.activities == db.activities
    ensures forall k :: k in db.instances ==> k in mid.instances && mid.instances[k] == db.instances[k]
    ensures forall k :: k in mid.instances && k !in db.instances ==>
              IsStart(group[0]) && NamedAs(k, group[0].instance) && LinkedAs(mid.instances[k], group[0].instance) &&
              Newborn(mid.instances[k])
    ensures IsStart(group[0]) ==>
              exists k :: k in mid.instances && NamedAs(k, group[0].instance)
  {
    if IsStart(group[0]) {
      var own := group[0].event.attributes.queue;
      mid :| Creates(db, if own == "" then queue else own, group[0].instance, mid) && Adds(mid, target, EventsOf(group), db');
      var key, row: InstanceRow {:trigger db.instances[key := row]} :|
        && NamedAs(key, group[0].instance) && key !in db.instances
        && Newborn(row) && row.queue == (if own == "" then queue else own) && LinkedAs(row, group[0].instance)
        && mid == db.(instances := db.instances[key := row]);
      assert key in mid.instances;
    } else {
      mid := db;
    }
  }

  lemma AddsTransitive(a: Db, self: Instance, ws: seq<WorkflowEvent>, b: Db, c: Db)
    requires OnlyAdds(a, self, ws, b) && OnlyAdds(b, self, ws, c)
    ensures OnlyAdds(a, self, ws, c)
  {
    hide Carried, LinkedAs, NamedAs, IsStart;
  }

  lemma {:induction false} DeliverGroupsMeans(db: Db, self: Instance, queue: Queue, order: seq<Instance>,
                                              ws: seq<WorkflowEvent>, now: Time, source: nat, i: nat)
    requires i <= |order| && forall t :: t in order ==> GroupOf(ws, t) != []
    ensures
      var tx := DeliverGroups(db, self, queue, order, ws, now, source, i);
      tx.Commit? ==> OnlyAdds(db, self, ws, tx.db)
    decreases |order| - i
  {
    hide DeliverGroup, Delivers, OnlyAdds;
    if i == |order| {
      assert OnlyAdds(db, self, ws, db) by { AddsNothing(db, self, ws); }
    } else {
      var step := DeliverGroup(db, self, queue, order[i], GroupOf(ws, order[i]), now, source, i);
      if step.Commit? {
        DeliverGroupMeans(db, self, queue, order[i], GroupOf(ws, order[i]), now, source, i);
        GroupAdds(db, self, queue, order[i], ws, step.db);
        DeliverGroupsMeans(step.db, self, queue, order, ws, now, source, i + 1);
        var tx := DeliverGroups(step.db, self, queue, order, ws, now, source, i + 1);
        if tx.Commit? {
          AddsTransitive(db, self, ws, step.db, tx.db);
        }
      }
    }
  }

  lemma AddsNothing(db: Db, self: Instance, ws: seq<WorkflowEvent>)
    ensures OnlyAdds(db, self, ws, db)
  {
  }

  lemma RunsOn(db: Db, self: Instance, ws: seq<WorkflowEvent>, db': Db, instanceID: Name)
    requires OnlyAdds(db, self, ws, db') && Runs(db, instanceID)
    ensures Runs(db', instanceID)
  {
    var k :| k in db.instances && k.instanceID == instanceID && db.instances[k].state == Active;
    assert k in db'.instances && db'.instances[k] == db.instances[k];
  }

  /**
    A group that starts an execution ends in exactly that execution, or, if another of the instance
    is active when it is delivered, in the refusal.
   */
  lemma {:induction false} StartDelivered(db: Db, self: Instance, queue: Queue, order: seq<Instance>,
                                          ws: seq<WorkflowEvent>, now: Time, source: nat, i: nat, j: nat)
    returns (before: Db)
    requires i <= j < |order| && forall t :: t in order ==> GroupOf(ws, t) != []
    requires IsStart(GroupOf(ws, order[j])[0]) && DeliverGroups(db, self, queue, order, ws, now, source, i).Commit?
    ensures
      var target := GroupOf(ws, order[j])[0].instance;
      var end := DeliverGroups(db, self, queue, order, ws, now, source, i).db;
      && OnlyAdds(db, self, ws, before) && OnlyAdds(before, self, ws, end)
      && if Runs(before, target.instanceID) then exists row :: row in end.pending && Refuses(self, target, row)
         else exists k :: k in end.instances && k !in before.instances && NamedAs(k, target)
    decreases |order| - i
  {
    hide DeliverGroup, Delivers, OnlyAdds, IsStart, Runs;
    var group := GroupOf(ws, order[i]);
    var step := DeliverGroup(db, self, queue, order[i], group, now, source, i).db;
    var end := DeliverGroups(db, self, queue, order, ws, now, source, i).db;
    DeliverGroupMeans(db, self, queue, order[i], group, now, source, i);
    GroupAdds(db, self, queue, order[i], ws, step);
    DeliverGroupsMeans(step, self, queue, order, ws, now, source, i + 1);
    if i == j {
      before := db;
      AddsNothing(db, self, ws);
      AddsTransitive(db, self, ws, step, end);
      StartEnds(db, self, queue, order[i], group, ws, step, end);
    } else {
      before := StartDelivered(step, self, queue, order, ws, now, source, i + 1, j);
      AddsTransitive(db, self, ws, step, before);
    }
  }

  /** The messages for the target were delivered, after and before others. */
  ghost predicate Reached(db: Db, self: Instance, queue: Queue, ws: seq<WorkflowEvent>, target: Instance, db': Db)
    requires GroupOf(ws, target) != []
  {
    exists before, after ::
      && OnlyAdds(db, self, ws, before)
      && Delivers(before, self, queue, target, GroupOf(ws, target), after)
      && OnlyAdds(after, self, ws, db')
  }

  /** No target is left out. */
  lemma {:induction false} EachReached(db: Db, self: Instance, queue: Queue, order: seq<Instance>,
                                       ws: seq<WorkflowEvent>,
                                       now: Time, source: nat, i: nat, j: nat)
    requires i <= j < |order| && forall t :: t in order ==> GroupOf(ws, t) != []
    requires DeliverGroups(db, self, queue, order, ws, now, source, i).Commit?
    ensures Reached(db, self, queue, ws, order[j], DeliverGroups(db, self, queue, order, ws, now, source, i).db)
    decreases |order| - i
  {
    hide DeliverGroup, Delivers, OnlyAdds;
    var group := GroupOf(ws, order[i]);
    var step := DeliverGroup(db, self, queue, order[i], group, now, source, i).db;
    var end := DeliverGroups(db, self, queue, order, ws, now, source, i).db;
    DeliverGroupMeans(db, self, queue, order[i], group, now, source, i);
    if i == j {
      AddsNothing(db, self, ws);
      DeliverGroupsMeans(step, self, queue, order, ws, now, source, i + 1);
    } else {
      GroupAdds(db, self, queue, order[i], ws, step);
      EachReached(step, self, queue, order, ws, now, source, i + 1, j);
      var before, after :|
        && OnlyAdds(step, self, ws, before)
        && Delivers(before, self, queue, order[j], GroupOf(ws, order[j]), after)
        && OnlyAdds(after, self, ws, end);
      AddsTransitive(db, self, ws, step, before);
    }
  }

  /** Every message of the task was delivered, and nothing else was. */
  ghost predicate Told(db: Db, self: Instance, queue: Queue, ws: seq<WorkflowEvent>, db': Db) {
    && OnlyAdds(db, self, ws, db')
    && forall w :: w in ws ==> GroupOf(ws, w.instance) != [] && Reached(db, self, queue, ws, w.instance, db')
  }

  lemma DeliverGroupsTells(db: Db, self: Instance, queue: Queue, order: seq<Instance>, ws: seq<WorkflowEvent>,
                           now: Time,
                           source: nat)
    requires IsOrder(order, ws) && forall t :: t in order ==> GroupOf(ws, t) != []
    requires DeliverGroups(db, self, queue, order, ws, now, source, 0).Commit?
    ensures Told(db, self, queue, ws, DeliverGroups(db, self, queue, order, ws, now, source, 0).db)
  {
    hide DeliverGroups, OnlyAdds, Reached;
    DeliverGroupsMeans(db, self, queue, order, ws, now, source, 0);
    var end := DeliverGroups(db, self, queue, order, ws, now, source, 0).db;
    forall w | w in ws
      ensures GroupOf(ws, w.instance) != [] && Reached(db, self, queue, ws, w.instance, end)
    {
      var j :| 0 <= j < |order| && order[j] == w.instance;
      EachReached(db, self, queue, order, ws, now, source, 0, j);
    }
  }

  lemma StartEnds(db: Db, self: Instance, queue: Queue, target: Instance, group: seq<WorkflowEvent>,
                  ws: seq<WorkflowEvent>, step: Db, end: Db)
    requires group != [] && IsStart(group[0]) && Delivers(db, self, queue, target, group, step) &&
             OnlyAdds(step, self, ws, end)
    ensures
      if Runs(db, group[0].instance.instanceID) then
        exists row :: row in end.pending && Refuses(self, group[0].instance, row)
      else exists k :: k in end.instances && k !in db.instances && NamedAs(k, group[0].instance)
  {
    hide EventsOf, Runs;
    if Runs(db, group[0].instance.instanceID) {
      var row :| Refuses(self, group[0].instance, row) && row !in db.pending && step == db.(pending := db.pending + {row});
      assert row in end.pending;
    } else {
      var own := group[0].event.attributes.queue;
      var mid :|
        Creates(db, if own == "" then queue else own, group[0].instance, mid) && Adds(mid, target, EventsOf(group), step);
      var key, row: InstanceRow {:trigger db.instances[key := row]} :|
        && NamedAs(key, group[0].instance) && key !in db.instances
        && Newborn(row) && row.queue == (if own == "" then queue else own) && LinkedAs(row, group[0].instance)
        && mid == db.(instances := db.instances[key := row]);
      assert key in step.instances && key in end.instances;
    }
  }

  // ---------- the instance's own tables ----------

  /** The row is released by its worker, and says what became of the execution. */
  predicate Released(a: InstanceRow, state: InstanceState, now: Time, stickyTimeout: int, b: InstanceRow) {
    && b.queue == a.queue && b.parent == a.parent && b.worker == a.worker
    && b.state == state && b.lockedUntil.None? && b.stickyUntil == Some(now + stickyTimeout)
    && b.completedAt == if state == Active then None else Some(now)
  }

  /** The event was received by the task, which executed it. */
  predicate Processed(row: PendingRow, i: Instance, executed: seq<Event>) {
    NamedAs(row.key, i) && exists e :: e in executed && e.id == row.event.id
  }

  /** The event is due later, for a timer that was canceled. */
  predicate Obsolete(row: PendingRow, i: Instance, executed: seq<Event>) {
    NamedAs(row.key, i) && row.event.visibleAt.Some? &&
    exists e :: e in executed && e.attributes.TimerCanceled? && e.scheduleEventID == row.event.scheduleEventID
  }

  /** A free activity to run, on the queue asked for or else the instance's. */
  predicate Offered(row: ActivityRow, i: Instance, queue: Queue, e: Event) {
    && NamedAs(row.key, i) && row.event == e && row.lockedUntil.None? && row.worker.None?
    && e.attributes.ActivityScheduled?
    && row.queue == if e.attributes.queue == "" then queue else e.attributes.queue
  }

  /** What recording a completed task does to the tables. */
  ghost predicate TaskRecorded(db: Db, t: Task, r: ExecutionResult, now: Time, stickyTimeout: int, db': Db) {
    exists key ::
      && NamedAs(key, t.instance) && key in db.instances && db'.instances.Keys == db.instances.Keys
      && (forall k :: k in db.instances && k != key ==> db'.instances[k] == db.instances[k])
      && Released(db.instances[key], r.state, now, stickyTimeout, db'.instances[key])
      && db'.HistoryOf(key) == db.HistoryOf(key) + r.executed
      && (forall k :: k != key ==> db'.HistoryOf(k) == db.HistoryOf(k))
      && (forall row :: row in db'.pending <==>
            ((row in db.pending && !Processed(row, t.instance, r.executed)) ||
             (NamedAs(row.key, t.instance) && row.event in r.timerEvents)) &&
            !Obsolete(row, t.instance, r.executed))
      && (forall n :: n in db.activities ==> n in db'.activities && db'.activities[n] == db.activities[n])
      && (forall e :: e in r.activityEvents ==>
            e.id !in db.activities && e.id in db'.activities && Offered(db'.activities[e.id], t.instance, t.queue, e))
      && (forall n :: n in db'.activities ==> n in db.activities || exists e :: e in r.activityEvents && e.id == n)
  }

  lemma {:induction false} ScheduleMeans(db: Db, i: Instance, queue: Queue, events: seq<Event>)
    requires forall e :: e in events ==> e.attributes.ActivityScheduled?
    ensures
      var tx := ScheduleActivities(db, KeyOf(i), queue, events);
      tx.Commit? ==>
        && tx.db == db.(activities := tx.db.activities)
        && (forall n :: n in db.activities ==> n in tx.db.activities && tx.db.activities[n] == db.activities[n])
        && (forall e :: e in events ==>
              e.id !in db.activities && e.id in tx.db.activities && Offered(tx.db.activities[e.id], i, queue, e))
        && (forall n :: n in tx.db.activities ==> n in db.activities || exists e :: e in events && e.id == n)
    decreases |events|
  {
    hide Offered;
    if events != [] && ScheduleActivities(db, KeyOf(i), queue, events).Commit? {
      var e := events[0];
      OfferedRow(i, queue, e);
      var q := if e.attributes.queue == "" then queue else e.attributes.queue;
      var next := db.(activities := db.activities[e.id := ActivityRow(KeyOf(i), q, e, None, None)]);
      ScheduleMeans(next, i, queue, events[1..]);
      var end := ScheduleActivities(next, KeyOf(i), queue, events[1..]).db;
      assert e.id in next.activities && end.activities[e.id] == next.activities[e.id];
      assert events == [e] + events[1..];
    }
  }

  lemma OfferedRow(i: Instance, queue: Queue, e: Event)
    requires e.attributes.ActivityScheduled?
    ensures Offered(ActivityRow(KeyOf(i), if e.attributes.queue == "" then queue else e.attributes.queue, e, None, None),
                    i, queue, e)
  {
  }

  lemma InsertHistoryMeans(db: Db, i: Instance, events: seq<Event>)
    ensures
      var tx := InsertHistory(db, KeyOf(i), events);
      tx.Commit? ==>
        && tx.db == db.(history := tx.db.history) && tx.db.HistoryOf(KeyOf(i)) == db.HistoryOf(KeyOf(i)) + events
        && forall k :: k != KeyOf(i) ==> tx.db.HistoryOf(k) == db.HistoryOf(k)
  {
  }

  lemma DeleteMeans(db: Db, i: Instance, executed: seq<Event>)
    ensures
      var db' := DeletePending(db, KeyOf(i), executed);
      db' == db.(pending := db'.pending) &&
      forall row :: row in db'.pending <==> row in db.pending && !Processed(row, i, executed)
    ensures
      var db' := RemoveFutureEvents(db, KeyOf(i), executed);
      db' == db.(pending := db'.pending) &&
      forall row :: row in db'.pending <==> row in db.pending && !Obsolete(row, i, executed)
  {
  }

  lemma UnlockMeans(row: InstanceRow, state: InstanceState, now: Time, stickyTimeout: int)
    ensures Released(row, state, now, stickyTimeout, Unlock(row, state, now, stickyTimeout))
  {
  }

  lemma RecordMeans(db: Db, t: Task, r: ExecutionResult, now: Time, stickyTimeout: int)
    requires KeyOf(t.instance) in db.instances
    requires forall e :: e in r.activityEvents ==> e.attributes.ActivityScheduled?
    ensures
      var tx := Record(db, t, r, now, stickyTimeout);
      tx.Commit? ==> TaskRecorded(db, t, r, now, stickyTimeout, tx.db)
  {
    hide InsertHistory, ScheduleActivities, InsertPending, DeletePending, RemoveFutureEvents, Unlock, Released, Offered,
         Db.HistoryOf, Processed, Obsolete;
    var tx := Record(db, t, r, now, stickyTimeout);
    if tx.Commit? {
      var key, i := KeyOf(t.instance), t.instance;
      var unlocked := db.(instances := db.instances[key := Unlock(db.instances[key], r.state, now, stickyTimeout)]);
      UnlockMeans(db.instances[key], r.state, now, stickyTimeout);
      var deleted := DeletePending(unlocked, key, r.executed);
      DeleteMeans(unlocked, i, r.executed);
      InsertHistoryMeans(deleted, i, r.executed);
      var recorded := InsertHistory(deleted, key, r.executed).db;
      ScheduleMeans(recorded, i, t.queue, r.activityEvents);
      var scheduled := ScheduleActivities(recorded, key, t.queue, r.activityEvents).db;
      InsertPendingMeans(scheduled, i, r.timerEvents);
      var timed := InsertPending(scheduled, key, r.timerEvents).db;
      DeleteMeans(timed, i, r.executed);
      SameHistories(db, deleted);
      SameHistories(recorded, tx.db);
      assert NamedAs(key, i);
    }
  }

  lemma SameHistories(a: Db, b: Db)
    ensures a.history == b.history ==> forall k :: a.HistoryOf(k) == b.HistoryOf(k)
  {
  }

  /**
    The task is recorded, then its messages are delivered, then a continued execution is removed if the
    settings say so.
   */
  ghost predicate TaskCompleted(db: Db, t: Task, r: ExecutionResult, settings: Settings, now: Time, db': Db) {
    exists recorded, delivered ::
      && TaskRecorded(db, t, r, now, settings.stickyTimeout, recorded)
      && Told(recorded, t.instance, t.queue, r.workflowEvents, delivered)
      && Finally(delivered, t.instance, settings.removeContinuedAsNew && r.state == InstanceState.ContinuedAsNew, db')
  }

  /** The worker has the lease of the execution. */
  predicate Holding(db: Db, i: Instance, w: Worker) {
    exists key :: key in db.instances && NamedAs(key, i) && db.instances[key].worker == Some(w)
  }

  /** Without the lease a completion is refused. */
  lemma CompleteMeans(db: Db, w: Worker, t: Task, r: ExecutionResult, settings: Settings, now: Time, source: nat,
                      order: seq<Instance>)
    requires forall e :: e in r.activityEvents ==> e.attributes.ActivityScheduled?
    requires IsOrder(order, r.workflowEvents)
    ensures
      var tx := CompleteWorkflowTask(db, w, t, r, settings, now, source, order);
      && (!Holding(db, t.instance, w) ==> tx == Abort(NotLocked))
      && (tx.Commit? ==> TaskCompleted(db, t, r, settings, now, tx.db))
  {
    hide Record, DeliverGroups, TaskRecorded, Told;
    var tx := CompleteWorkflowTask(db, w, t, r, settings, now, source, order);
    assert NamedAs(KeyOf(t.instance), t.instance);
    if tx.Commit? {
      RecordMeans(db, t, r, now, settings.stickyTimeout);
      var recorded := Record(db, t, r, now, settings.stickyTimeout).db;
      OrderHasGroups(order, r.workflowEvents);
      DeliverGroupsTells(recorded, t.instance, t.queue, order, r.workflowEvents, now, source);
      var delivered := DeliverGroups(recorded, t.instance, t.queue, order, r.workflowEvents, now, source, 0).db;
      assert Finally(delivered, t.instance, settings.removeContinuedAsNew &&
             r.state == InstanceState.ContinuedAsNew, tx.db);
    }
  }

  /** The execution and its history are gone, or everything stays. */
  ghost predicate Finally(db: Db, i: Instance, removed: bool, db': Db) {
    db'.pending == db.pending && db'.activities == db.activities &&
    if removed then
      && (forall k :: k in db'.instances <==> k in db.instances && !NamedAs(k, i))
      && (forall k :: k in db'.instances ==> db'.instances[k] == db.instances[k])
      && (forall k :: k in db'.history <==> k in db.history && !NamedAs(k, i))
      && (forall k :: k in db'.history ==> db'.history[k] == db.history[k])
    else db'.instances == db.instances && db'.history == db.history
  }
}
