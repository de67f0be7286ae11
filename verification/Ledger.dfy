/**
  What holds of the tables after every transaction: who owns which event, what is still to come
  for every started activity, timer and sub-workflow.
 */
module Ledgers {
  import opened Basics
  import opened History
  import opened Execution
  import opened Histories
  import opened Contract
  import opened Database

  /** Something that carries, or is, the outcome of a started activity, timer or sub-workflow. */
  datatype Token =
    | Job(id: Name)            // a row of the activities table
    | Child(key: Key)          // an active execution
    | Waiting(row: PendingRow) // a result that is pending
    | Kept(index: nat)         // a result in history

  /** `t` is a token for what the execution `key` started under the given id. */
  predicate Holds(db: Db, key: Key, id: int, kind: Kind, t: Token) {
    match t
    case Job(n) =>
      kind == ActivityEnd && n in db.activities && db.activities[n].key == key &&
      db.activities[n].event.scheduleEventID == id
    case Child(k) =>
      kind == SubWorkflowEnd && k in db.instances && db.instances[k].state == Active &&
      db.instances[k].parent == Some(Link(key, id))
    case Waiting(row) =>
      row in db.pending && row.key == key && KindOf(row.event.attributes) == Some(kind) && row.event.scheduleEventID == id
    case Kept(i) =>
      i < |db.HistoryOf(key)| && KindOf(db.HistoryOf(key)[i].attributes) == Some(kind) &&
      db.HistoryOf(key)[i].scheduleEventID == id
  }

  ghost predicate ExactlyOne(db: Db, key: Key, id: int, kind: Kind) {
    exists t :: Holds(db, key, id, kind, t) && forall u :: Holds(db, key, id, kind, u) ==> u == t
  }

  ghost predicate NoToken(db: Db, key: Key, id: int, kind: Kind) {
    forall t :: !Holds(db, key, id, kind, t)
  }

  /**
    What happened besides the tables: the events accepted for delivery, the execution every event
    id was drawn for, all execution ids ever used, and the executions that were removed.
   */
  datatype Ledger = Ledger(
    accepted: set<PendingRow>,
    owner: map<Name, Key>,
    executions: set<Name>,
    removed: set<Key>)

  // ---------- the invariant, piece by piece ----------

  predicate Owned(db: Db, g: Ledger) {
    && (forall row :: row in db.pending ==> row.event.id in g.owner && g.owner[row.event.id] == row.key)
    && (forall k, e :: k in db.history && e in db.history[k] ==> e.id in g.owner && g.owner[e.id] == k)
    && (forall n :: n in db.activities ==>
          n in g.owner && g.owner[n] == db.activities[n].key && db.activities[n].event.id == n)
  }

  /** No event is both pending and recorded, or recorded twice. */
  predicate Once(db: Db) {
    && (forall r, s :: r in db.pending && s in db.pending && r.event.id == s.event.id ==> r == s)
    && (forall k :: k in db.history ==> DistinctIds(db.history[k]))
    && (forall row, e :: row in db.pending && e in db.HistoryOf(row.key) ==> e.id != row.event.id)
  }

  /** Only deliverable events are pending, and exactly timer events have a due time. */
  predicate Deliveries(db: Db) {
    forall row :: row in db.pending ==>
      Deliverable(row.event.attributes) && (row.event.visibleAt.Some? <==> row.event.attributes.TimerFired?)
  }

  /** Every history is numbered 1, 2, ... without gap or duplicate. */
  predicate Sequenced(db: Db) {
    forall k :: k in db.history ==> NumberedFrom(db.history[k], 0)
  }

  predicate OneActive(db: Db) {
    forall j, k :: j in db.instances && k in db.instances && j.instanceID == k.instanceID ==>
      db.instances[j].state == Active && db.instances[k].state == Active ==> j == k
  }

  predicate HasTerminal(h: seq<Event>) {
    exists e :: e in h && IsTerminal(e.attributes)
  }

  predicate TerminalOnlyLast(h: seq<Event>) {
    forall i :: 0 <= i < |h| - 1 ==> !IsTerminal(h[i].attributes)
  }

  /** An execution is over exactly when its history says so, in its last event. */
  predicate Finality(db: Db) {
    && (forall k :: k in db.instances ==> (db.instances[k].state != Active <==> HasTerminal(db.HistoryOf(k))))
    && (forall k :: k in db.history ==> k in db.instances && TerminalOnlyLast(db.history[k]))
  }

  /** Execution ids in use. */
  predicate Known(db: Db, g: Ledger) {
    && (forall k :: k in db.instances ==> k.executionID in g.executions)
    && (forall k :: k in db.instances && db.instances[k].parent.Some? ==>
          db.instances[k].parent.value.parent.executionID in g.executions)
    && (forall k, s :: k in db.history && s in SubInstances(db.history[k]) ==> s.1.executionID in g.executions)
    && (forall k :: k in g.removed ==> k.executionID in g.executions && k !in db.instances)
  }

  predicate Among(e: Event, h: seq<Event>) {
    exists f :: f in h && f == e.(sequenceID := f.sequenceID)
  }

  /** Every accepted event is pending or recorded, except the event of a canceled timer. */
  predicate Accounted(db: Db, g: Ledger) {
    && db.pending <= g.accepted
    && (forall row :: row in g.accepted && row.key !in g.removed ==>
          row in db.pending || Among(row.event, db.HistoryOf(row.key)) ||
          (row.event.attributes.TimerFired? && row.event.scheduleEventID in Ids(db.HistoryOf(row.key), TimerStop)))
  }

  /** Every recorded activity has exactly one row, pending result or recorded result. */
  ghost predicate ActivitiesSettle(db: Db, g: Ledger) {
    forall key, id {:trigger ExactlyOne(db, key, id, ActivityEnd)} {:trigger NoToken(db, key, id, ActivityEnd)} ::
      key !in g.removed ==>
      if id in Ids(db.HistoryOf(key), ActivityStart) then ExactlyOne(db, key, id, ActivityEnd)
      else NoToken(db, key, id, ActivityEnd)
  }

  /** Every recorded timer has exactly one firing, pending or recorded, unless it was canceled. */
  ghost predicate TimersSettle(db: Db, g: Ledger) {
    && (forall key, id {:trigger ExactlyOne(db, key, id, TimerFire)} {:trigger NoToken(db, key, id, TimerFire)} ::
          key !in g.removed ==>
          if id !in Ids(db.HistoryOf(key), TimerStart) then NoToken(db, key, id, TimerFire)
          else if id !in Ids(db.HistoryOf(key), TimerStop) then ExactlyOne(db, key, id, TimerFire)
          else NoToken(db, key, id, TimerFire) || ExactlyOne(db, key, id, TimerFire))
    && (forall row :: row in db.pending && row.key !in g.removed && row.event.attributes.TimerFired? ==>
          row.event.scheduleEventID !in Ids(db.HistoryOf(row.key), TimerStop))
    && (forall k :: k in db.history ==> Ids(db.history[k], TimerStop) <= Ids(db.history[k], TimerStart))
  }

  /**
    Every recorded sub-workflow has exactly one active execution, pending result or recorded result.
    Inside a transaction, `owed` names those whose token is still to be delivered.
   */
  ghost predicate SubWorkflowsSettle(db: Db, g: Ledger, owed: set<(Key, int)>) {
    && (forall key, id {:trigger ExactlyOne(db, key, id, SubWorkflowEnd)} {:trigger NoToken(db, key, id, SubWorkflowEnd)} ::
          key !in g.removed ==>
          if id in Ids(db.HistoryOf(key), SubWorkflowStart) && (key, id) !in owed
          then ExactlyOne(db, key, id, SubWorkflowEnd) else NoToken(db, key, id, SubWorkflowEnd))
    && (forall d :: d in owed && d.0 !in g.removed ==> d.1 in Ids(db.HistoryOf(d.0), SubWorkflowStart))
  }

  predicate Structure(db: Db, g: Ledger) {
    && Owned(db, g) && Once(db) && Deliveries(db) && Sequenced(db)
    && OneActive(db) && Finality(db) && Known(db, g) && Accounted(db, g)
  }

  ghost predicate Inv(db: Db, g: Ledger, owed: set<(Key, int)>) {
    Structure(db, g) && ActivitiesSettle(db, g) && TimersSettle(db, g) && SubWorkflowsSettle(db, g, owed)
  }

  // ---------- inserting pending events ----------

  function IdsOf(events: seq<Event>): set<Name> {
    set e | e in events :: e.id
  }

  function Own(g: Ledger, key: Key, ids: set<Name>): Ledger {
    g.(owner := map n | n in g.owner.Keys + ids :: if n in ids then key else g.owner[n])
  }

  function Accept(g: Ledger, key: Key, events: seq<Event>): Ledger {
    Own(g, key, IdsOf(events)).(accepted := g.accepted + RowsFor(key, events))
  }

  /** New events that may be inserted into pending_events. */
  predicate Insertable(g: Ledger, events: seq<Event>) {
    && DistinctIds(events)
    && (forall e :: e in events ==>
          e.id !in g.owner && Deliverable(e.attributes) && (e.visibleAt.Some? <==> e.attributes.TimerFired?))
  }

  lemma AddOwned(db: Db, g: Ledger, key: Key, events: seq<Event>)
    requires Owned(db, g) && Insertable(g, events)
    ensures Owned(db.(pending := db.pending + RowsFor(key, events)), Accept(g, key, events))
  {
    hide Deliverable;
  }

  lemma AddOnce(db: Db, g: Ledger, key: Key, events: seq<Event>)
    requires Owned(db, g) && Once(db) && Insertable(g, events)
    ensures Once(db.(pending := db.pending + RowsFor(key, events)))
    ensures !PendingConflict(db, key, events)
  {
    hide Deliverable;
  }

  lemma AddRows(db: Db, g: Ledger, key: Key, events: seq<Event>)
    requires Structure(db, g) && Insertable(g, events)
    ensures InsertPending(db, key, events) == Commit(db.(pending := db.pending + RowsFor(key, events)))
    ensures Structure(InsertPending(db, key, events).db, Accept(g, key, events))
  {
    hide Owned, Once, PendingConflict, Deliveries, Sequenced, OneActive, Finality, Known, Accounted, Insertable;
    AddOwned(db, g, key, events);
    AddOnce(db, g, key, events);
    AddAccounted(db, g, key, events);
    AddFrame(db, g, key, events);
  }

  lemma AddAccounted(db: Db, g: Ledger, key: Key, events: seq<Event>)
    requires Deliveries(db) && Accounted(db, g) && Insertable(g, events)
    ensures Deliveries(db.(pending := db.pending + RowsFor(key, events)))
    ensures Accounted(db.(pending := db.pending + RowsFor(key, events)), Accept(g, key, events))
  {
    hide Deliverable, Among, Ids, DistinctIds;
  }

  lemma AddFrame(db: Db, g: Ledger, key: Key, events: seq<Event>)
    requires Sequenced(db) && OneActive(db) && Finality(db) && Known(db, g)
    ensures
      var db' := db.(pending := db.pending + RowsFor(key, events));
      Sequenced(db') && OneActive(db') && Finality(db') && Known(db', Accept(g, key, events))
  {
    hide NumberedFrom, TerminalOnlyLast, HasTerminal, SubInstances;
  }

  /** The tokens after inserting pending events. */
  lemma AddedTokens(db: Db, key: Key, events: seq<Event>, k: Key, id: int, kind: Kind, t: Token)
    ensures
      var db' := db.(pending := db.pending + RowsFor(key, events));
      Holds(db', k, id, kind, t) <==>
      Holds(db, k, id, kind, t) ||
      (t.Waiting? && t.row in RowsFor(key, events) && k == key && KindOf(t.row.event.attributes) == Some(kind) &&
       t.row.event.scheduleEventID == id)
  {
  }

  /** Events that are nobody's outcome change no account. */
  lemma AddMessages(db: Db, g: Ledger, owed: set<(Key, int)>, key: Key, events: seq<Event>)
    requires Inv(db, g, owed) && Insertable(g, events)
    requires forall e :: e in events ==> KindOf(e.attributes).None?
    ensures Inv(db.(pending := db.pending + RowsFor(key, events)), Accept(g, key, events), owed)
    ensures InsertPending(db, key, events).Commit?
  {
    hide Structure, Holds, Ids;
    AddRows(db, g, key, events);
    var db' := db.(pending := db.pending + RowsFor(key, events));
    forall k, id, kind, t
      ensures Holds(db', k, id, kind, t) <==> Holds(db, k, id, kind, t)
    {
      AddedTokens(db, key, events, k, id, kind, t);
    }
    SameTokens(db, db', g, Accept(g, key, events), owed);
  }

  /** The accounts depend on tokens and histories only. */
  lemma SameTokens(db: Db, db': Db, g: Ledger, g': Ledger, owed: set<(Key, int)>)
    requires ActivitiesSettle(db, g) && TimersSettle(db, g) && SubWorkflowsSettle(db, g, owed)
    requires g.removed <= g'.removed
    requires forall k :: k !in g'.removed ==> db'.HistoryOf(k) == db.HistoryOf(k)
    requires forall k :: k in db'.history ==> k in db.history && db'.history[k] == db.history[k]
    requires forall k, id, kind, t :: k !in g'.removed ==> (Holds(db', k, id, kind, t) <==> Holds(db, k, id, kind, t))
    requires forall row :: row in db'.pending && row.event.attributes.TimerFired? ==> row in db.pending
    ensures ActivitiesSettle(db', g') && TimersSettle(db', g') && SubWorkflowsSettle(db', g', owed)
  {
    hide Holds, Ids, Db.HistoryOf;
    forall k, id, kind | k !in g'.removed
      ensures ExactlyOne(db', k, id, kind) == ExactlyOne(db, k, id, kind)
      ensures NoToken(db', k, id, kind) == NoToken(db, k, id, kind)
    {
      SameCount(db, db', k, id, kind);
    }
  }

  lemma SameCount(db: Db, db': Db, k: Key, id: int, kind: Kind)
    requires forall t :: Holds(db', k, id, kind, t) <==> Holds(db, k, id, kind, t)
    ensures ExactlyOne(db', k, id, kind) == ExactlyOne(db, k, id, kind)
    ensures NoToken(db', k, id, kind) == NoToken(db, k, id, kind)
  {
    hide Holds;
    if ExactlyOne(db, k, id, kind) {
      var t :| Holds(db, k, id, kind, t) && forall u :: Holds(db, k, id, kind, u) ==> u == t;
      assert Holds(db', k, id, kind, t);
    }
    if ExactlyOne(db', k, id, kind) {
      var t :| Holds(db', k, id, kind, t) && forall u :: Holds(db', k, id, kind, u) ==> u == t;
      assert Holds(db, k, id, kind, t);
    }
  }

  /** An owed sub-workflow outcome arrives, possibly together with messages. */
  lemma AddOutcome(db: Db, g: Ledger, owed: set<(Key, int)>, key: Key, events: seq<Event>, e: Event)
    requires Inv(db, g, owed) && Insertable(g, events)
    requires e in events && KindOf(e.attributes) == Some(SubWorkflowEnd) && (key, e.scheduleEventID) in owed
    requires forall f :: f in events && f != e ==> KindOf(f.attributes).None?
    ensures Inv(db.(pending := db.pending + RowsFor(key, events)), Accept(g, key, events), owed - {(key, e.scheduleEventID)})
    ensures InsertPending(db, key, events).Commit?
  {
    hide Structure, Holds, Ids, Db.HistoryOf;
    AddRows(db, g, key, events);
    var db' := db.(pending := db.pending + RowsFor(key, events));
    var token := Waiting(PendingRow(key, e));
    forall k, id, kind, t
      ensures Holds(db', k, id, kind, t) <==>
              Holds(db, k, id, kind, t) || (k == key && id == e.scheduleEventID && kind == SubWorkflowEnd && t == token)
    {
      AddedTokens(db, key, events, k, id, kind, t);
    }
    OneMoreToken(db, db', g, Accept(g, key, events), owed, key, e.scheduleEventID, token);
  }

  /** Exactly one owed token is delivered. */
  lemma OneMoreToken(db: Db, db': Db, g: Ledger, g': Ledger, owed: set<(Key, int)>, key: Key, id: int, token: Token)
    requires ActivitiesSettle(db, g) && TimersSettle(db, g) && SubWorkflowsSettle(db, g, owed)
    requires g.removed == g'.removed && (key, id) in owed
    requires db'.history == db.history
    requires forall k, i, kind, t :: Holds(db', k, i, kind, t) <==>
               Holds(db, k, i, kind, t) || (k == key && i == id && kind == SubWorkflowEnd && t == token)
    requires forall row :: row in db'.pending && row.event.attributes.TimerFired? ==> row in db.pending
    ensures ActivitiesSettle(db', g') && TimersSettle(db', g') && SubWorkflowsSettle(db', g', owed - {(key, id)})
  {
    hide Holds, Ids;
    forall k, i, kind | !(k == key && i == id && kind == SubWorkflowEnd)
      ensures ExactlyOne(db', k, i, kind) == ExactlyOne(db, k, i, kind)
      ensures NoToken(db', k, i, kind) == NoToken(db, k, i, kind)
    {
      SameCount(db, db', k, i, kind);
    }
    if key !in g.removed {
      assert NoToken(db, key, id, SubWorkflowEnd);
      assert Holds(db', key, id, SubWorkflowEnd, token);
      assert ExactlyOne(db', key, id, SubWorkflowEnd);
    }
  }

  /** A new execution; if it is a sub-workflow it was owed to its parent. */
  lemma AddInstance(db: Db, g: Ledger, owed: set<(Key, int)>, queue: Queue, i: Instance)
    requires Inv(db, g, owed)
    requires !HasActive(db, i.instanceID) && KeyOf(i) !in db.instances && KeyOf(i) !in g.removed
    requires i.parent.Some? ==>
               i.parent.value.executionID in g.executions && (KeyOf(i.parent.value), i.parentEventID) in owed
    ensures
      var paid := if i.parent.Some? then {(KeyOf(i.parent.value), i.parentEventID)} else {};
      CreateInstance(db, queue, i).Commit? &&
      Inv(CreateInstance(db, queue, i).db, g.(executions := g.executions + {i.executionID}), owed - paid)
  {
    hide Holds, Structure, ActivitiesSettle, TimersSettle, SubWorkflowsSettle;
    var db' := CreateInstance(db, queue, i).db;
    var g' := g.(executions := g.executions + {i.executionID});
    AddInstanceStructure(db, g, InstanceRow(queue, LinkOf(i), Active, None, None, None, None), KeyOf(i));
    ChildTokens(db, db', i);
    if i.parent.Some? {
      OneMoreToken(db, db', g, g', owed, KeyOf(i.parent.value), i.parentEventID, Child(KeyOf(i)));
    } else {
      SameTokens(db, db', g, g', owed);
      assert owed - {} == owed;
    }
  }

  lemma AddInstanceStructure(db: Db, g: Ledger, row: InstanceRow, key: Key)
    requires Structure(db, g) && row.state == Active
    requires !HasActive(db, key.instanceID) && key !in db.instances && key !in g.removed
    requires row.parent.Some? ==> row.parent.value.parent.executionID in g.executions
    ensures Structure(db.(instances := db.instances[key := row]), g.(executions := g.executions + {key.executionID}))
  {
    hide Owned, Once, Deliveries, Sequenced, OneActive, Finality, Known, Accounted, HasActive;
    var db' := db.(instances := db.instances[key := row]);
    var g' := g.(executions := g.executions + {key.executionID});
    SameOwned(db, db', g, g');
    AddExecution(db, g, row, key);
    SameAccounted(db, db', g, g');
  }

  lemma AddExecution(db: Db, g: Ledger, row: InstanceRow, key: Key)
    requires OneActive(db) && Finality(db) && Known(db, g) && row.state == Active
    requires !HasActive(db, key.instanceID) && key !in db.instances && key !in g.removed
    requires row.parent.Some? ==> row.parent.value.parent.executionID in g.executions
    ensures
      var db' := db.(instances := db.instances[key := row]);
      OneActive(db') && Finality(db') && Known(db', g.(executions := g.executions + {key.executionID}))
  {
    hide SubInstances, TerminalOnlyLast, HasTerminal;
    NoTerminalYet();
    assert key !in db.history;
  }

  lemma NoTerminalYet()
    ensures !HasTerminal([])
  {
  }

  lemma SameAccounted(db: Db, db': Db, g: Ledger, g': Ledger)
    requires Accounted(db, g) && db'.pending == db.pending && db'.history == db.history
    requires g'.accepted == g.accepted && g'.removed == g.removed
    ensures Accounted(db', g')
  {
    hide Among, Ids;
  }

  lemma SameOwned(db: Db, db': Db, g: Ledger, g': Ledger)
    requires Owned(db, g) && Once(db) && Deliveries(db) && Sequenced(db)
    requires db'.pending == db.pending && db'.history == db.history && db'.activities == db.activities &&
             g'.owner == g.owner
    ensures Owned(db', g') && Once(db') && Deliveries(db') && Sequenced(db')
  {
  }

  lemma ChildTokens(db: Db, db': Db, i: Instance)
    requires KeyOf(i) !in db.instances
    requires exists row :: db' == db.(instances := db.instances[KeyOf(i) := row]) &&
                           row.parent == LinkOf(i) && row.state == Active
    ensures forall k, id, kind, t :: Holds(db', k, id, kind, t) <==>
              Holds(db, k, id, kind, t) ||
              (i.parent.Some? && k == KeyOf(i.parent.value) && id == i.parentEventID && kind == SubWorkflowEnd &&
               t == Child(KeyOf(i)))
  {
  }
}
