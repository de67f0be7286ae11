/**
  Workers, clients and the database as one state machine: every transaction is a step, and any number of
  workers may be interleaved in any way, with leases expiring at any time.
 */
module Protocol {
  import opened Basics
  import opened History
  import opened Commands
  import opened Execution
  import opened Histories
  import opened Contract
  import opened Decisions
  import opened Database
  import opened Ledgers
  import opened Transactions
  import opened Recording
  import opened Bookkeeping
  import opened Settlement
  import opened Delivery

  // ---------- completing a task, as a whole ----------

  /** The ledger after completing a task. */
  function Completed(db: Db, g: Ledger, f: Report, settings: Settings, at: Time, order: seq<Instance>): Ledger
    requires f.Key() in db.instances && IsOrder(order, f.result.workflowEvents)
    requires forall e :: e in f.result.activityEvents ==> e.attributes.ActivityScheduled?
  {
    match Record(db, f.task, f.result, at, settings.stickyTimeout)
    case Abort(_) => g
    case Commit(recorded) =>
      OrderHasGroups(order, f.result.workflowEvents);
      var g' := EnterGroups(recorded, Charged(g, f), f.task.instance, f.task.queue, order, f.result.workflowEvents,
                            at, f.source, 0);
      if settings.removeContinuedAsNew && f.result.state == InstanceState.ContinuedAsNew
      then g'.(removed := g'.removed + {f.Key()}) else g'
  }

  /** For any lease on `k`, nothing changed. */
  predicate Undisturbed(db: Db, db': Db, k: Key) {
    k in db'.instances && db'.instances[k].worker.Some? ==>
      && k in db.instances && db'.instances[k].worker == db.instances[k].worker
      && db'.instances[k].state == db.instances[k].state && db'.instances[k].parent == db.instances[k].parent
      && db'.HistoryOf(k) == db.HistoryOf(k)
      && (forall row :: row in db.pending && row.key == k ==> row in db'.pending)
  }

  /** Completing a task of another execution leaves `k` alone, or creates it. */
  predicate Elsewhere(db: Db, db': Db, k: Key) {
    && (k in db.instances ==> k in db'.instances && db'.instances[k] == db.instances[k])
    && (k in db'.instances && k !in db.instances ==> Newborn(db'.instances[k]))
    && db'.HistoryOf(k) == db.HistoryOf(k)
    && (forall row :: row in db.pending && row.key == k ==> row in db'.pending)
  }

  /** The identifiers in use after a step are old, or come from `source`. */
  predicate DrawsFrom(g: Ledger, g': Ledger, source: nat) {
    && (forall n :: n in g'.owner && n !in g.owner ==> n.Drawn? && n.source == source)
    && (forall n :: n in g'.executions && n !in g.executions ==> n.Drawn? && n.source == source)
  }

  predicate MayRemove(g: Ledger, g': Ledger, key: Key) {
    g.removed <= g'.removed <= g.removed + {key}
  }

  lemma HonestActivities(h: seq<Event>, f: Report)
    requires Honest(h, f.task, f.result, f.now, f.source, f.count, f.commands)
    ensures forall e :: e in f.result.activityEvents ==> e.attributes.ActivityScheduled?
  {
    hide Decided, Collect;
    ActivitiesAmongEvents(f.commands, f.now, f.source);
  }

  /** A timely report by the holder of the lease commits, and keeps every account. */
  lemma CompleteKeeps(db: Db, g: Ledger, w: Worker, f: Report, settings: Settings, at: Time, order: seq<Instance>)
    requires Inv(db, g, {}) && Timely(db, g, f) && IsOrder(order, f.result.workflowEvents)
    requires f.Key() in db.instances && db.instances[f.Key()].worker == Some(w)
    ensures forall e :: e in f.result.activityEvents ==> e.attributes.ActivityScheduled?
    ensures
      var tx := CompleteWorkflowTask(db, w, f.task, f.result, settings, at, f.source, order);
      && tx.Commit?
      && Inv(tx.db, Completed(db, g, f, settings, at, order), {})
      && (forall k :: k != f.Key() ==> Elsewhere(db, tx.db, k))
      && (forall n :: n in db.activities ==> n in tx.db.activities && tx.db.activities[n] == db.activities[n])
      && DrawsFrom(g, Completed(db, g, f, settings, at, order), f.source)
      && MayRemove(g, Completed(db, g, f, settings, at, order), f.Key())
      && if settings.removeContinuedAsNew && f.result.state == InstanceState.ContinuedAsNew
         then f.Key() !in tx.db.instances && f.Key() in Completed(db, g, f, settings, at, order).removed
         else
           && f.Key() in tx.db.instances && tx.db.instances[f.Key()].state == f.result.state
           && tx.db.instances[f.Key()].parent == db.instances[f.Key()].parent
           && tx.db.instances[f.Key()].worker == Some(w)
           && tx.db.instances[f.Key()] == Unlock(db.instances[f.Key()], f.result.state, at, settings.stickyTimeout)
           && tx.db.HistoryOf(f.Key()) == db.HistoryOf(f.Key()) + f.result.executed
  {
    hide Inv, Timely, RecordedBy, Record, Addressed, Extends, Delivering, Elsewhere, DrawsFrom, IsOrder,
         DeliverGroups, Charged,
         EnterGroups;
    var after := RecordKeeps(db, g, f, at, settings.stickyTimeout);
    HonestIsAddressed(db, g, f);
    ReadyToDeliver(db, after, g, f, at, settings.stickyTimeout, order);
    var delivered, g' :=
      DeliverAll(after, Charged(g, f), f.task.instance, f.source, f.result.workflowEvents, order, 0, f.task.queue, at);
    CompletedFrame(db, after, delivered, g, g', f, at, settings.stickyTimeout);
    if settings.removeContinuedAsNew && f.result.state == InstanceState.ContinuedAsNew {
      RemoveKeeps(delivered, g', f.Key());
      RemovedFrame(db, delivered, g, g', f.Key(), f.source);
    }
  }

  lemma CompletedFrame(db: Db, after: Db, delivered: Db, g: Ledger, g': Ledger, f: Report, at: Time, stickyTimeout: int)
    requires Inv(db, g, {}) && Timely(db, g, f) && f.Key() in db.instances &&
             RecordedBy(db, after, f, at, stickyTimeout)
    requires Extends(after, Charged(g, f), delivered, g', f.source)
    ensures forall k :: k != f.Key() ==> Elsewhere(db, delivered, k)
    ensures DrawsFrom(g, g', f.source) && g'.removed == g.removed
    ensures f.Key() in delivered.instances
    ensures forall n :: n in db.activities ==> n in delivered.activities && delivered.activities[n] == db.activities[n]
    ensures delivered.instances[f.Key()] == Unlock(db.instances[f.Key()], f.result.state, at, stickyTimeout)
    ensures delivered.HistoryOf(f.Key()) == db.HistoryOf(f.Key()) + f.result.executed
  {
    hide Inv, Honest, Fresh, InTable, IsExecuted, Collect, Charged, Timely, IsCanceled;
    forall row | row in db.pending && row.key != f.Key()
      ensures row in after.pending
    {
      OthersRemain(db, f, row);
    }
    ChargedDraws(db, g, f);
    RowsStay(db.activities, after.activities, f.Key(), f.result.activityEvents);
  }

  lemma RowsStay(before: map<Name, ActivityRow>, after: map<Name, ActivityRow>, key: Key, events: seq<Event>)
    requires InTable(before, after, key, events)
    ensures forall n :: n in before ==> n in after && after[n] == before[n]
  {
    forall n | n in before
      ensures n in after && after[n] == before[n]
    {
      assert n in before.Keys + IdsOf(events);
    }
  }

  lemma OthersRemain(db: Db, f: Report, row: PendingRow)
    requires row in db.pending && row.key != f.Key()
    ensures Remains(row, db, f)
  {
  }

  lemma ChargedDraws(db: Db, g: Ledger, f: Report)
    requires Inv(db, g, {}) && Timely(db, g, f)
    ensures DrawsFrom(g, Charged(g, f), f.source) && Charged(g, f).removed == g.removed
  {
    hide Honest, Collect, Held, Once, Sequenced, OneActive, Finality, Accounted, ActivitiesSettle, TimersSettle,
         SubWorkflowsSettle, Owned;
    TimersMean(db, g, f);
    forall n | n in IdsOf(f.result.executed) && n !in g.owner
      ensures n.Drawn? && n.source == f.source
    {
      var e :| e in f.result.executed && e.id == n;
      var j :| 0 <= j < |f.result.executed| && f.result.executed[j] == e;
      ExecutedId(db, g, f, j);
    }
    forall n | n in NewExecutions(f.Decisions().events)
      ensures n.Drawn? && n.source == f.source
    {
      NewExecutionDrawn(db, g, f, n);
    }
  }

  lemma NewExecutionDrawn(db: Db, g: Ledger, f: Report, n: Name)
    requires Timely(db, g, f) && n in NewExecutions(f.Decisions().events)
    ensures n.Drawn? && n.source == f.source
  {
    hide Honest, Collect, Held, Ids, Started, SubInstances;
    var e: Event :| e in f.Decisions().events && e.attributes.SubWorkflowScheduled? && e.attributes.instance.executionID == n;
    HonestIsDecided(db, g, f);
    DecisionMeans(f.commands, db.HistoryOf(f.Key()), f.task.instance, f.source, f.now, e);
  }

  lemma RemovedFrame(db: Db, delivered: Db, g: Ledger, g': Ledger, key: Key, source: nat)
    requires forall k :: k != key ==> Elsewhere(db, delivered, k)
    requires DrawsFrom(g, g', source) && RemoveWorkflowInstance(delivered, key).Commit?
    ensures
      var removed := RemoveWorkflowInstance(delivered, key).db;
      && key !in removed.instances && (forall k :: k != key ==> Elsewhere(db, removed, k))
      && DrawsFrom(g, g'.(removed := g'.removed + {key}), source)
  {
    var removed := RemoveWorkflowInstance(delivered, key).db;
    forall k | k != key
      ensures Elsewhere(db, removed, k)
    {
      assert Elsewhere(db, delivered, k);
      assert removed.HistoryOf(k) == delivered.HistoryOf(k);
    }
  }

  // ---------- the system ----------

  /** A task in the hands of a worker, and the history when it was fetched. */
  datatype Claim = Claim(task: Task, seen: seq<Event>)

  datatype System = System(db: Db, ledger: Ledger, claims: map<(Worker, Key), Claim>)

  datatype Call =
    | Create(instance: Instance, event: Event)
    | Signal(instanceID: Name, key: Key, event: Event)
    | Cancel(key: Key, event: Event)
    | Remove(key: Key)
    | Fetch(worker: Worker, key: Key, queues: set<Queue>, now: Time, until: Time, later: Time, newEvents: seq<Event>)
    | Extend(worker: Worker, key: Key, until: Time)
    | Forget(worker: Worker, key: Key)
    | Finish(worker: Worker, key: Key, report: Report, settings: Settings, at: Time, order: seq<Instance>)
    | FetchActivity(worker: Worker, id: Name, queues: set<Queue>, now: Time, until: Time)
    | FinishActivity(worker: Worker, key: Key, id: Name, result: Event)

  /**
    The hypotheses about workers and clients: generated ids are fresh, a worker never holds two
    tasks of one execution, and reports honestly about the history it was given.
   */
  predicate Permitted(s: System, c: Call) {
    match c
    case Create(i, e) =>
      Request(s.ledger, e) && e.attributes.ExecutionStarted? && i.parent.None? && i.executionID !in s.ledger.executions
    case Signal(id, key, e) =>
      Request(s.ledger, e) && e.attributes.SignalReceived? && (HasActive(s.db, id) ==> IsActiveExecution(s.db, id, key))
    case Cancel(key, e) => Request(s.ledger, e) && e.attributes.ExecutionCanceled?
    case Remove(key) => true
    case Fetch(w, key, queues, now, until, later, events) =>
      (w, key) !in s.claims && now <= later && Lockable(s.db, w, queues, now, key) &&
      Enumerates(events, key, VisibleRows(s.db, key, later))
    case Extend(w, key, until) => true
    case Forget(w, key) => true
    case Finish(w, key, f, settings, at, order) =>
      (w, key) in s.claims && f.task == s.claims[(w, key)].task && Fresh(s.ledger, f.source) &&
      Honest(s.claims[(w, key)].seen, f.task, f.result, f.now, f.source, f.count, f.commands) &&
      IsOrder(order, f.result.workflowEvents)
    case FetchActivity(w, id, queues, now, until) => LockableActivity(s.db, queues, now, id)
    case FinishActivity(w, key, id, result) =>
      KindOf(result.attributes) == Some(ActivityEnd) && result.visibleAt.None? && result.id !in s.ledger.owner &&
      (id in s.db.activities ==> result.scheduleEventID == s.db.activities[id].event.scheduleEventID)
  }

  /** A rejected transaction leaves the tables as they are. */
  function Outcome(db: Db, tx: Tx): Db {
    if tx.Commit? then tx.db else db
  }

  function TaskTx(s: System, c: Call): Tx
    requires c.Finish? && Permitted(s, c)
  {
    HonestActivities(s.claims[(c.worker, c.key)].seen, c.report);
    CompleteWorkflowTask(s.db, c.worker, c.report.task, c.report.result, c.settings, c.at, c.report.source, c.order)
  }

  function After(s: System, c: Call): System
    requires Permitted(s, c)
  {
    match c
    case Create(i, e) =>
      var tx := CreateWorkflowInstance(s.db, i, e);
      if tx.Abort? then s
      else s.(db := tx.db, ledger := Accept(s.ledger.(executions := s.ledger.executions + {i.executionID}), KeyOf(i), [e]))
    case Signal(id, key, e) =>
      var tx := SignalWorkflow(s.db, id, key, e);
      if tx.Abort? then s else s.(db := tx.db, ledger := Accept(s.ledger, key, [e]))
    case Cancel(key, e) =>
      var tx := CancelWorkflowInstance(s.db, key, e);
      if tx.Abort? then s else s.(db := tx.db, ledger := Accept(s.ledger, key, [e]))
    case Remove(key) =>
      var tx := RemoveWorkflowInstance(s.db, key);
      if tx.Abort? then s else s.(db := tx.db, ledger := s.ledger.(removed := s.ledger.removed + {key}))
    case Fetch(w, key, queues, now, until, later, events) =>
      var locked := LockInstance(s.db, w, until, key);
      s.(db := locked, claims := s.claims[(w, key) := Claim(TaskFor(locked, key, events), s.db.HistoryOf(key))])
    case Extend(w, key, until) => s.(db := Outcome(s.db, ExtendWorkflowTask(s.db, w, key, until)))
    case Forget(w, key) => s.(claims := s.claims - {(w, key)})
    case Finish(w, key, f, settings, at, order) =>
      var tx := TaskTx(s, c);
      if tx.Abort? then s.(claims := s.claims - {(w, key)})
      else
        HonestActivities(s.claims[(w, key)].seen, f);
        System(tx.db, if f.Key() in s.db.instances then Completed(s.db, s.ledger, f, settings, at, order) else s.ledger,
               s.claims - {(w, key)})
    case FetchActivity(w, id, queues, now, until) => s.(db := Outcome(s.db, LockActivity(s.db, w, until, id)))
    case FinishActivity(w, key, id, result) =>
      var tx := CompleteActivityTask(s.db, w, key, id, result);
      if tx.Abort? then s else s.(db := tx.db, ledger := Accept(s.ledger, key, [result]))
  }

  const Empty := System(Db(map[], {}, map[], map[]), Ledger({}, map[], {}, {}), map[])

  // ---------- the invariant of the system ----------

  /** While a worker has the lease, its task describes the tables. */
  predicate ClaimHolds(db: Db, w: Worker, key: Key, claim: Claim) {
    && KeyOf(claim.task.instance) == key && claim.task.lastSequenceID == |claim.seen|
    && (key in db.instances && db.instances[key].worker == Some(w) ==>
          Held(db, claim.task) && db.HistoryOf(key) == claim.seen)
  }

  predicate ClaimsHold(s: System) {
    forall c :: c in s.claims ==> ClaimHolds(s.db, c.0, c.1, s.claims[c])
  }

  ghost predicate Sane(s: System) {
    Inv(s.db, s.ledger, {}) && ClaimsHold(s)
  }

  lemma NothingOwned()
    ensures Structure(Empty.db, Empty.ledger)
  {
  }

  lemma NothingOwed()
    ensures ActivitiesSettle(Empty.db, Empty.ledger) && TimersSettle(Empty.db, Empty.ledger)
    ensures SubWorkflowsSettle(Empty.db, Empty.ledger, {})
  {
  }

  lemma EmptyIsSane()
    ensures Sane(Empty)
  {
    hide Structure, ActivitiesSettle, TimersSettle, SubWorkflowsSettle;
    NothingOwned();
    NothingOwed();
  }

  lemma ClaimKept(db: Db, db': Db, w: Worker, key: Key, claim: Claim)
    requires ClaimHolds(db, w, key, claim) && Undisturbed(db, db', key)
    ensures ClaimHolds(db', w, key, claim)
  {
    hide DistinctIds;
  }

  /** Undisturbed leases keep their claims. */
  lemma ClaimsKept(s: System, s': System)
    requires ClaimsHold(s)
    requires forall c :: c in s'.claims ==> c in s.claims && s'.claims[c] == s.claims[c] && Undisturbed(s.db, s'.db, c.1)
    ensures ClaimsHold(s')
  {
    hide ClaimHolds, Undisturbed;
    forall c | c in s'.claims
      ensures ClaimHolds(s'.db, c.0, c.1, s'.claims[c])
    {
      ClaimKept(s.db, s'.db, c.0, c.1, s.claims[c]);
    }
  }

  lemma InsertedUndisturbed(db: Db, db': Db)
    requires db'.instances == db.instances && db'.history == db.history && db.pending <= db'.pending
    ensures forall k :: Undisturbed(db, db', k)
  {
  }

  lemma CreateSane(s: System, c: Call)
    requires Sane(s) && c.Create? && Permitted(s, c)
    ensures Sane(After(s, c))
  {
    hide Inv, ClaimsHold, HasActive, PendingConflict;
    var s' := After(s, c);
    if !HasActive(s.db, c.instance.instanceID) {
      CreateKeeps(s.db, s.ledger, c.instance, c.event);
      forall k
        ensures Undisturbed(s.db, s'.db, k)
      {
      }
      ClaimsKept(s, s');
    }
  }

  lemma RequestSane(s: System, c: Call)
    requires Sane(s) && (c.Signal? || c.Cancel?) && Permitted(s, c)
    ensures Sane(After(s, c))
  {
    hide Inv, ClaimsHold, HasActive, PendingConflict, Undisturbed;
    var s' := After(s, c);
    if s' != s {
      DeliverKeeps(s.db, s.ledger, c.key, c.event);
      InsertedUndisturbed(s.db, s'.db);
      ClaimsKept(s, s');
    }
  }

  lemma RemoveSane(s: System, c: Call)
    requires Sane(s) && c.Remove? && Permitted(s, c)
    ensures Sane(After(s, c))
  {
    hide Inv, ClaimsHold;
    var s' := After(s, c);
    if s' != s {
      RemoveKeeps(s.db, s.ledger, c.key);
      forall k
        ensures Undisturbed(s.db, s'.db, k)
      {
        assert k != c.key ==> s'.db.HistoryOf(k) == s.db.HistoryOf(k);
      }
      ClaimsKept(s, s');
    }
  }

  /** A fetched task describes the tables. */
  lemma FetchedHolds(s: System, c: Call)
    requires Inv(s.db, s.ledger, {}) && c.Fetch? && Permitted(s, c)
    ensures ClaimHolds(After(s, c).db, c.worker, c.key, After(s, c).claims[(c.worker, c.key)])
  {
    hide Owned, Once, Deliveries, OneActive, Finality, Known, Accounted, ActivitiesSettle, TimersSettle,
         SubWorkflowsSettle, DistinctIds;
    var h := s.db.HistoryOf(c.key);
    assert LastSequenceID(h) == |h|;
    forall e | e in c.newEvents
      ensures PendingRow(c.key, e) in s.db.pending
    {
      assert PendingRow(c.key, e) in RowsFor(c.key, c.newEvents);
    }
  }

  lemma FetchSane(s: System, c: Call)
    requires Sane(s) && c.Fetch? && Permitted(s, c)
    ensures Sane(After(s, c))
  {
    hide Inv, ClaimHolds, Enumerates, VisibleRows;
    var s' := After(s, c);
    LockKeeps(s.db, s.ledger, c.worker, c.until, c.key);
    FetchedHolds(s, c);
    forall d | d in s'.claims
      ensures ClaimHolds(s'.db, d.0, d.1, s'.claims[d])
    {
      if d != (c.worker, c.key) {
        if d.1 == c.key {
          TakenOver(s.db, s'.db, d.0, d.1, s.claims[d]);
        } else {
          ClaimKept(s.db, s'.db, d.0, d.1, s.claims[d]);
        }
      }
    }
  }

  /** Another worker has the lease now. */
  lemma TakenOver(db: Db, db': Db, w: Worker, key: Key, claim: Claim)
    requires ClaimHolds(db, w, key, claim) && key in db'.instances && db'.instances[key].worker != Some(w)
    ensures ClaimHolds(db', w, key, claim)
  {
    hide Held;
  }

  lemma LeaseSane(s: System, c: Call)
    requires Sane(s) && (c.Extend? || c.FetchActivity? || c.Forget?) && Permitted(s, c)
    ensures Sane(After(s, c))
  {
    hide Inv, ClaimsHold;
    var s' := After(s, c);
    match c {
    case Extend(w, key, until) =>
      if ExtendWorkflowTask(s.db, w, key, until).Commit? {
        ExtendKeeps(s.db, s.ledger, w, key, until);
      }
    case FetchActivity(w, id, _, _, until) =>
      if LockActivity(s.db, w, until, id).Commit? {
        LockActivityKeeps(s.db, s.ledger, w, until, id);
      }
    case Forget(w, key) =>
    }
    forall k
      ensures Undisturbed(s.db, s'.db, k)
    {
    }
    ClaimsKept(s, s');
  }

  lemma FinishActivitySane(s: System, c: Call)
    requires Sane(s) && c.FinishActivity? && Permitted(s, c)
    ensures Sane(After(s, c))
  {
    hide Inv, ClaimsHold, PendingConflict, Undisturbed;
    var s' := After(s, c);
    if s' != s {
      CompleteActivityKeeps(s.db, s.ledger, c.worker, c.key, c.id, c.result);
      InsertedUndisturbed(s.db, s'.db);
      ClaimsKept(s, s');
    }
  }

  /** A report is timely exactly as long as its worker has the lease. */
  lemma ReportTimely(s: System, c: Call)
    requires Sane(s) && c.Finish? && Permitted(s, c)
    requires c.key in s.db.instances && s.db.instances[c.key].worker == Some(c.worker)
    ensures c.report.Key() == c.key && Timely(s.db, s.ledger, c.report)
    ensures s.db.HistoryOf(c.key) == s.claims[(c.worker, c.key)].seen
  {
    hide Inv, Honest, Fresh, Held;
    assert ClaimHolds(s.db, c.worker, c.key, s.claims[(c.worker, c.key)]);
  }

  lemma FinishSane(s: System, c: Call)
    requires Sane(s) && c.Finish? && Permitted(s, c)
    ensures Sane(After(s, c))
  {
    hide Inv, Honest, Fresh, ClaimHolds, Undisturbed, Elsewhere, DrawsFrom, Completed, IsOrder, Timely;
    var s' := After(s, c);
    var f := c.report;
    assert ClaimHolds(s.db, c.worker, c.key, s.claims[(c.worker, c.key)]);
    ClaimKey(s.db, c.worker, c.key, s.claims[(c.worker, c.key)]);
    if c.key in s.db.instances && s.db.instances[c.key].worker == Some(c.worker) {
      ReportTimely(s, c);
      CompleteKeeps(s.db, s.ledger, c.worker, f, c.settings, c.at, c.order);
      forall d | d in s'.claims
        ensures ClaimHolds(s'.db, d.0, d.1, s'.claims[d])
      {
        if d.1 != c.key {
          ElsewhereUndisturbed(s.db, s'.db, d.1);
          ClaimKept(s.db, s'.db, d.0, d.1, s.claims[d]);
        } else {
          NotTheHolder(s.db, s'.db, c.worker, d.0, c.key, s.claims[d]);
        }
      }
    }
  }

  lemma ElsewhereUndisturbed(db: Db, db': Db, k: Key)
    requires Elsewhere(db, db', k)
    ensures Undisturbed(db, db', k)
  {
  }

  lemma ClaimKey(db: Db, w: Worker, key: Key, claim: Claim)
    requires ClaimHolds(db, w, key, claim)
    ensures KeyOf(claim.task.instance) == key
  {
  }

  lemma NotTheHolder(db: Db, db': Db, holder: Worker, w: Worker, key: Key, claim: Claim)
    requires ClaimHolds(db, w, key, claim) && w != holder
    requires key in db'.instances ==> db'.instances[key].worker == Some(holder)
    ensures ClaimHolds(db', w, key, claim)
  {
    hide Held;
  }

  /** Every step keeps the system sane. */
  lemma StepSane(s: System, c: Call)
    requires Sane(s) && Permitted(s, c)
    ensures Sane(After(s, c))
  {
    hide Sane, After, Permitted;
    match c
    case Create(_, _) => CreateSane(s, c);
    case Signal(_, _, _) => RequestSane(s, c);
    case Cancel(_, _) => RequestSane(s, c);
    case Remove(_) => RemoveSane(s, c);
    case Fetch(_, _, _, _, _, _, _) => FetchSane(s, c);
    case Extend(_, _, _) => LeaseSane(s, c);
    case Forget(_, _) => LeaseSane(s, c);
    case Finish(_, _, _, _, _, _) => FinishSane(s, c);
    case FetchActivity(_, _, _, _, _) => LeaseSane(s, c);
    case FinishActivity(_, _, _, _) => FinishActivitySane(s, c);
  }
}
