/**
  The tables of the SQLite backend and its transactions as functions from database to database
  (backend/sqlite). A transaction either commits or leaves everything as it was.
 */
module Database {
  import opened Basics
  import opened History
  import opened Execution

  type Worker = nat

  /** Identifies one execution of a workflow instance. */
  datatype Key = Key(instanceID: Name, executionID: Name)

  /** The event of a parent execution that started a sub-workflow. */
  datatype Link = Link(parent: Key, eventID: int)

  function KeyOf(i: Instance): Key {
    Key(i.instanceID, i.executionID)
  }

  function LinkOf(i: Instance): Option<Link> {
    if i.parent.Some? then Some(Link(KeyOf(i.parent.value), i.parentEventID)) else None
  }

  datatype InstanceRow = InstanceRow(
    queue: Queue,
    parent: Option<Link>,
    state: InstanceState,
    completedAt: Option<Time>,
    lockedUntil: Option<Time>,
    stickyUntil: Option<Time>,
    worker: Option<Worker>)

  /** A new execution: active, never leased, never completed. */
  predicate Newborn(row: InstanceRow) {
    row.state == Active && row.completedAt.None? && row.lockedUntil.None? && row.stickyUntil.None? && row.worker.None?
  }

  datatype PendingRow = PendingRow(key: Key, event: Event)

  datatype ActivityRow = ActivityRow(
    key: Key,
    queue: Queue,
    event: Event,
    lockedUntil: Option<Time>,
    worker: Option<Worker>)

  /** The tables. Rows of pending_events have no order; history is in insertion order. */
  datatype Db = Db(
    instances: map<Key, InstanceRow>,
    pending: set<PendingRow>,
    history: map<Key, seq<Event>>,
    activities: map<Name, ActivityRow>)
  {
    function HistoryOf(key: Key): seq<Event> {
      if key in history then history[key] else []
    }
  }

  datatype TxError = InstanceAlreadyExists | InstanceNotFound | InstanceNotFinished | NotLocked | ConstraintViolation

  datatype Tx = Commit(db: Db) | Abort(error: TxError)
  {
    predicate IsFailure() {
      Abort?
    }

    function PropagateFailure(): Tx
      requires Abort?
    {
      this
    }

    function Extract(): Db
      requires Commit?
    {
      db
    }
  }

  // ---------- inserting events ----------

  function RowsFor(key: Key, events: seq<Event>): set<PendingRow> {
    set e | e in events :: PendingRow(key, e)
  }

  /** The primary key of pending_events is the event id and the instance id. */
  predicate PendingConflict(db: Db, key: Key, events: seq<Event>) {
    !DistinctIds(events) ||
    exists row, e :: row in db.pending && e in events && row.key.instanceID == key.instanceID && row.event.id == e.id
  }

  function InsertPending(db: Db, key: Key, events: seq<Event>): Tx {
    if PendingConflict(db, key, events) then Abort(ConstraintViolation)
    else Commit(db.(pending := db.pending + RowsFor(key, events)))
  }

  predicate HistoryConflict(db: Db, key: Key, events: seq<Event>) {
    !DistinctIds(events) ||
    exists k, f, e :: k in db.history && f in db.history[k] && e in events && k.instanceID == key.instanceID && f.id == e.id
  }

  function InsertHistory(db: Db, key: Key, events: seq<Event>): Tx {
    if HistoryConflict(db, key, events) then Abort(ConstraintViolation)
    else if events == [] then Commit(db)
    else Commit(db.(history := db.history[key := db.HistoryOf(key) + events]))
  }

  // ---------- client operations ----------

  predicate HasActive(db: Db, instanceID: Name) {
    exists k :: k in db.instances && k.instanceID == instanceID && db.instances[k].state == Active
  }

  function CreateInstance(db: Db, queue: Queue, i: Instance): Tx {
    if HasActive(db, i.instanceID) then Abort(TxError.InstanceAlreadyExists)
    else if KeyOf(i) in db.instances then Abort(ConstraintViolation)
    else Commit(db.(instances := db.instances[KeyOf(i) := InstanceRow(queue, LinkOf(i), Active, None, None, None, None)]))
  }

  function CreateWorkflowInstance(db: Db, i: Instance, event: Event): Tx
    requires event.attributes.ExecutionStarted?
  {
    var created :- CreateInstance(db, event.attributes.queue, i);
    InsertPending(created, KeyOf(i), [event])
  }

  /** Signals the active execution `key` of the instance; which one is the database's choice. */
  function SignalWorkflow(db: Db, instanceID: Name, key: Key, event: Event): Tx {
    if !HasActive(db, instanceID) then Abort(InstanceNotFound) else InsertPending(db, key, [event])
  }

  predicate IsActiveExecution(db: Db, instanceID: Name, key: Key) {
    key in db.instances && key.instanceID == instanceID && db.instances[key].state == Active
  }

  function CancelWorkflowInstance(db: Db, key: Key, event: Event): Tx {
    if key !in db.instances then Abort(InstanceNotFound) else InsertPending(db, key, [event])
  }

  function RemoveWorkflowInstance(db: Db, key: Key): Tx {
    if key !in db.instances then Abort(InstanceNotFound)
    else if db.instances[key].state == Active then Abort(InstanceNotFinished)
    else Commit(db.(instances := db.instances - {key}, history := db.history - {key}))
  }

  // ---------- workflow tasks ----------

  predicate Expired(until: Option<Time>, now: Time) {
    until.None? || until.value < now
  }

  predicate Visible(e: Event, now: Time) {
    e.visibleAt.None? || e.visibleAt.value <= now
  }

  function VisibleRows(db: Db, key: Key, now: Time): set<PendingRow> {
    set row | row in db.pending && row.key == key && Visible(row.event, now)
  }

  /** What the sub-query of GetWorkflowTask selects from. */
  predicate Lockable(db: Db, w: Worker, queues: set<Queue>, now: Time, key: Key) {
    key in db.instances &&
    var row := db.instances[key];
    && Expired(row.lockedUntil, now)
    && (Expired(row.stickyUntil, now) || row.worker == Some(w))
    && row.state == Active && row.completedAt.None?
    && row.queue in queues
    && VisibleRows(db, key, now) != {}
  }

  function LockInstance(db: Db, w: Worker, until: Time, key: Key): Db
    requires key in db.instances
  {
    db.(instances := db.instances[key := db.instances[key].(lockedUntil := Some(until), worker := Some(w))])
  }

  /** The instance as read back from its row: a parent is only known by its ids. */
  function InstanceAt(key: Key, row: InstanceRow): Instance {
    match row.parent
    case None => Instance(key.instanceID, key.executionID, None, 0)
    case Some(link) =>
      Instance(key.instanceID, key.executionID,
               Some(Instance(link.parent.instanceID, link.parent.executionID, None, 0)), link.eventID)
  }

  function LastSequenceID(h: seq<Event>): int {
    if h == [] then 0 else h[|h| - 1].sequenceID
  }

  /** The task handed out for `key`; the rows come in no particular order. */
  function TaskFor(db: Db, key: Key, newEvents: seq<Event>): Task
    requires key in db.instances
  {
    Task(InstanceAt(key, db.instances[key]), Active, db.instances[key].queue, newEvents, LastSequenceID(db.HistoryOf(key)))
  }

  predicate Enumerates(events: seq<Event>, key: Key, rows: set<PendingRow>) {
    DistinctIds(events) && RowsFor(key, events) == rows
  }

  function ExtendWorkflowTask(db: Db, w: Worker, key: Key, until: Time): Tx {
    if key !in db.instances || db.instances[key].worker != Some(w) then Abort(NotLocked)
    else Commit(db.(instances := db.instances[key := db.instances[key].(lockedUntil := Some(until))]))
  }

  // ---------- completing a workflow task ----------

  datatype Settings = Settings(stickyTimeout: int, removeContinuedAsNew: bool)

  function Unlock(row: InstanceRow, state: InstanceState, now: Time, stickyTimeout: int): InstanceRow {
    row.(lockedUntil := None, stickyUntil := Some(now + stickyTimeout),
         completedAt := if state == Active then None else Some(now), state := state)
  }

  function DeletePending(db: Db, key: Key, events: seq<Event>): Db {
    db.(pending := set row | row in db.pending && !(row.key == key && exists e :: e in events && e.id == row.event.id))
  }

  /** One row in the activities table per scheduled activity; the primary key is the event id. */
  function ScheduleActivities(db: Db, key: Key, queue: Queue, events: seq<Event>): Tx
    requires forall e :: e in events ==> e.attributes.ActivityScheduled?
    decreases |events|
  {
    if events == [] then Commit(db)
    else
      var e := events[0];
      if e.id in db.activities then Abort(ConstraintViolation)
      else
        var q := if e.attributes.queue == "" then queue else e.attributes.queue;
        ScheduleActivities(db.(activities := db.activities[e.id := ActivityRow(key, q, e, None, None)]), key, queue, events[1..])
  }

  predicate Future(row: PendingRow, key: Key, scheduleEventID: int) {
    row.key == key && row.event.scheduleEventID == scheduleEventID && row.event.visibleAt.Some?
  }

  /** removeFutureEvent for every canceled timer among the executed events. */
  function RemoveFutureEvents(db: Db, key: Key, executed: seq<Event>): Db {
    db.(pending := set row | row in db.pending &&
                             !(exists e :: e in executed && e.attributes.TimerCanceled? && Future(row, key, e.scheduleEventID)))
  }

  /** The events of one target instance, in order. */
  function GroupOf(events: seq<WorkflowEvent>, target: Instance): seq<WorkflowEvent> {
    if events == [] then []
    else (if events[0].instance == target then [events[0]] else []) + GroupOf(events[1..], target)
  }

  /** That is, exactly the events addressed to it, in the order they have. */
  lemma {:induction false} GroupIsFiltered(events: seq<WorkflowEvent>, target: Instance)
    ensures Filtered(events, (e: WorkflowEvent) => e.instance == target, GroupOf(events, target))
    decreases |events|
  {
    if events == [] {
      FilterNothing((e: WorkflowEvent) => e.instance == target);
    } else {
      GroupIsFiltered(events[1..], target);
      FilterMore(events, (e: WorkflowEvent) => e.instance == target, GroupOf(events[1..], target));
    }
  }

  /** The targets, each once, in an arbitrary order: the groups are visited in map order. */
  predicate IsOrder(order: seq<Instance>, events: seq<WorkflowEvent>) {
    && (forall i, j :: 0 <= i < j < |order| ==> order[i] != order[j])
    && (forall t :: t in order ==> exists e :: e in events && e.instance == t)
    && (forall e :: e in events ==> e.instance in order)
  }

  /** The event a parent gets when the sub-workflow it asked for cannot be created. */
  function ConflictEvent(target: Instance, now: Time, source: nat, i: nat): Event {
    NewPendingEvent(Drawn(source, ForConflict, i), now, target.parentEventID, SubWorkflowFailed(Error.InstanceAlreadyExists))
  }

  /** Delivers one group: a started event first creates the instance, or fails if its id is taken. */
  function DeliverGroup(db: Db, self: Instance, queue: Queue, target: Instance, group: seq<WorkflowEvent>, now: Time,
                        source: nat, i: nat): Tx
    requires group != []
  {
    var first := group[0].event.attributes;
    if first.ExecutionStarted? then
      match CreateInstance(db, if first.queue == "" then queue else first.queue, group[0].instance)
      case Commit(created) => InsertPending(created, KeyOf(target), EventsOf(group))
      case Abort(error) =>
        if error == TxError.InstanceAlreadyExists
        then InsertPending(db, KeyOf(self), [ConflictEvent(group[0].instance, now, source, i)])
        else Abort(error)
    else InsertPending(db, KeyOf(target), EventsOf(group))
  }

  lemma GroupMember(events: seq<WorkflowEvent>, target: Instance)
    ensures forall e :: e in GroupOf(events, target) <==> e in events && e.instance == target
  {
  }

  function DeliverGroups(db: Db, self: Instance, queue: Queue, order: seq<Instance>, events: seq<WorkflowEvent>,
                         now: Time, source: nat, i: nat): Tx
    requires i <= |order|
    requires forall t :: t in order ==> GroupOf(events, t) != []
    decreases |order| - i
  {
    if i == |order| then Commit(db)
    else
      var next :- DeliverGroup(db, self, queue, order[i], GroupOf(events, order[i]), now, source, i);
      DeliverGroups(next, self, queue, order, events, now, source, i + 1)
  }

  /** Everything CompleteWorkflowTask does in the tables of the instance itself. */
  function Record(db: Db, t: Task, r: ExecutionResult, now: Time, stickyTimeout: int): Tx
    requires KeyOf(t.instance) in db.instances
    requires forall e :: e in r.activityEvents ==> e.attributes.ActivityScheduled?
  {
    var key := KeyOf(t.instance);
    var unlocked := db.(instances := db.instances[key := Unlock(db.instances[key], r.state, now, stickyTimeout)]);
    var recorded :- InsertHistory(DeletePending(unlocked, key, r.executed), key, r.executed);
    var scheduled :- ScheduleActivities(recorded, key, t.queue, r.activityEvents);
    var timed :- InsertPending(scheduled, key, r.timerEvents);
    Commit(RemoveFutureEvents(timed, key, r.executed))
  }

  lemma OrderHasGroups(order: seq<Instance>, events: seq<WorkflowEvent>)
    requires IsOrder(order, events)
    ensures forall t :: t in order ==> GroupOf(events, t) != []
  {
    forall t | t in order
      ensures GroupOf(events, t) != []
    {
      GroupMember(events, t);
      var e :| e in events && e.instance == t;
      assert e in GroupOf(events, t);
    }
  }

  /** CompleteWorkflowTask. `source` names the UUIDs it draws, `order` is the order of the groups. */
  function CompleteWorkflowTask(db: Db, w: Worker, t: Task, r: ExecutionResult, settings: Settings, now: Time,
                                source: nat, order: seq<Instance>): Tx
    requires forall e :: e in r.activityEvents ==> e.attributes.ActivityScheduled?
    requires IsOrder(order, r.workflowEvents)
  {
    var key := KeyOf(t.instance);
    if key !in db.instances || db.instances[key].worker != Some(w) then Abort(NotLocked)
    else
      var recorded :- Record(db, t, r, now, settings.stickyTimeout);
      OrderHasGroups(order, r.workflowEvents);
      var delivered :- DeliverGroups(recorded, t.instance, t.queue, order, r.workflowEvents, now, source, 0);
      if settings.removeContinuedAsNew && r.state == InstanceState.ContinuedAsNew
      then RemoveWorkflowInstance(delivered, key)
      else Commit(delivered)
  }

  // ---------- activity tasks ----------

  predicate LockableActivity(db: Db, queues: set<Queue>, now: Time, id: Name) {
    id in db.activities && Expired(db.activities[id].lockedUntil, now) && db.activities[id].queue in queues
  }

  /** Locks the activity; its instance must still exist for the task's metadata. */
  function LockActivity(db: Db, w: Worker, until: Time, id: Name): Tx
    requires id in db.activities
  {
    if !(exists k :: k in db.instances && k.instanceID == db.activities[id].key.instanceID) then Abort(InstanceNotFound)
    else Commit(db.(activities := db.activities[id := db.activities[id].(lockedUntil := Some(until), worker := Some(w))]))
  }

  function CompleteActivityTask(db: Db, w: Worker, key: Key, id: Name, result: Event): Tx {
    if id !in db.activities || db.activities[id].key != key || db.activities[id].worker != Some(w) then Abort(NotLocked)
    else InsertPending(db.(activities := db.activities - {id}), key, [result])
  }
}
