/** The small transactions keep the invariant: locking, removing, activities, client requests. */
module Transactions {
  import opened Basics
  import opened History
  import opened Execution
  import opened Histories
  import opened Contract
  import opened Database
  import opened Ledgers

  // ---------- leases ----------

  predicate SameButLease(a: InstanceRow, b: InstanceRow) {
    a.parent == b.parent && a.state == b.state
  }

  /** Only leases differ. */
  predicate OnlyLeases(db: Db, db': Db) {
    && db'.pending == db.pending && db'.history == db.history
    && db'.instances.Keys == db.instances.Keys
    && (forall k :: k in db.instances ==> SameButLease(db.instances[k], db'.instances[k]))
    && db'.activities.Keys == db.activities.Keys
    && (forall n :: n in db.activities ==>
          db'.activities[n].key == db.activities[n].key && db'.activities[n].event == db.activities[n].event)
  }

  lemma LeasesKeep(db: Db, db': Db, g: Ledger, owed: set<(Key, int)>)
    requires Inv(db, g, owed) && OnlyLeases(db, db')
    ensures Inv(db', g, owed)
  {
    hide Owned, Once, Deliveries, Sequenced, OneActive, Finality, Known, Accounted, ActivitiesSettle, TimersSettle,
         SubWorkflowsSettle;
    LeaseStructure(db, db', g);
    forall k, id, kind, t
      ensures Holds(db', k, id, kind, t) <==> Holds(db, k, id, kind, t)
    {
    }
    SameTokens(db, db', g, g, owed);
  }

  lemma LeaseStructure(db: Db, db': Db, g: Ledger)
    requires Structure(db, g) && OnlyLeases(db, db')
    ensures Structure(db', g)
  {
    hide Owned, Once, Deliveries, Sequenced, OneActive, Finality, Known, Accounted;
    assert Owned(db', g) && Once(db') && Deliveries(db') && Sequenced(db') by { LeaseOwned(db, db', g); }
    LeaseOneActive(db, db');
    LeaseFinality(db, db', g);
    SameAccounted(db, db', g, g);
  }

  lemma LeaseOwned(db: Db, db': Db, g: Ledger)
    requires Owned(db, g) && Once(db) && Deliveries(db) && Sequenced(db) && OnlyLeases(db, db')
    ensures Owned(db', g) && Once(db') && Deliveries(db') && Sequenced(db')
  {
    hide DistinctIds, Deliverable, NumberedFrom;
  }

  lemma LeaseOneActive(db: Db, db': Db)
    requires OneActive(db) && OnlyLeases(db, db')
    ensures OneActive(db')
  {
    forall j, k | j in db'.instances && k in db'.instances && j.instanceID == k.instanceID &&
                  db'.instances[j].state == Active && db'.instances[k].state == Active
      ensures j == k
    {
      assert j in db.instances.Keys && k in db.instances.Keys;
    }
  }

  lemma LeaseFinality(db: Db, db': Db, g: Ledger)
    requires Finality(db) && Known(db, g) && OnlyLeases(db, db')
    ensures Finality(db') && Known(db', g)
  {
    hide HasTerminal, TerminalOnlyLast, SubInstances;
    forall k | k in db'.instances
      ensures k in db.instances && SameButLease(db.instances[k], db'.instances[k])
    {
      assert k in db.instances.Keys;
    }
  }

  lemma LockKeeps(db: Db, g: Ledger, w: Worker, until: Time, key: Key)
    requires Inv(db, g, {}) && key in db.instances
    ensures Inv(LockInstance(db, w, until, key), g, {})
  {
    hide Inv;
    LeasesKeep(db, LockInstance(db, w, until, key), g, {});
  }

  lemma ExtendKeeps(db: Db, g: Ledger, w: Worker, key: Key, until: Time)
    requires Inv(db, g, {}) && ExtendWorkflowTask(db, w, key, until).Commit?
    ensures Inv(ExtendWorkflowTask(db, w, key, until).db, g, {})
  {
    hide Inv;
    LeasesKeep(db, ExtendWorkflowTask(db, w, key, until).db, g, {});
  }

  lemma LockActivityKeeps(db: Db, g: Ledger, w: Worker, until: Time, id: Name)
    requires Inv(db, g, {}) && id in db.activities && LockActivity(db, w, until, id).Commit?
    ensures Inv(LockActivity(db, w, until, id).db, g, {})
  {
    hide Inv;
    LeasesKeep(db, LockActivity(db, w, until, id).db, g, {});
  }

  // ---------- removing an execution ----------

  lemma RemoveKeeps(db: Db, g: Ledger, key: Key)
    requires Inv(db, g, {}) && RemoveWorkflowInstance(db, key).Commit?
    ensures Inv(RemoveWorkflowInstance(db, key).db, g.(removed := g.removed + {key}), {})
  {
    hide Owned, Once, Deliveries, Sequenced, OneActive, Finality, Known, Accounted, ActivitiesSettle, TimersSettle,
         SubWorkflowsSettle;
    var db' := RemoveWorkflowInstance(db, key).db;
    var g' := g.(removed := g.removed + {key});
    assert Owned(db', g') && Once(db') && Deliveries(db') && Sequenced(db') by { RemoveOwned(db, g, key); }
    RemoveFinality(db, g, key);
    forall k, id, kind, t | k !in g'.removed
      ensures Holds(db', k, id, kind, t) <==> Holds(db, k, id, kind, t)
    {
    }
    SameTokens(db, db', g, g', {});
  }

  lemma RemoveOwned(db: Db, g: Ledger, key: Key)
    requires Owned(db, g) && Once(db) && Deliveries(db) && Sequenced(db)
    ensures
      var db' := db.(instances := db.instances - {key}, history := db.history - {key});
      Owned(db', g.(removed := g.removed + {key})) && Once(db') && Deliveries(db') && Sequenced(db')
  {
    hide DistinctIds, Deliverable, NumberedFrom;
  }

  lemma RemoveFinality(db: Db, g: Ledger, key: Key)
    requires OneActive(db) && Finality(db) && Known(db, g) && Accounted(db, g) && key in db.instances
    ensures
      var db' := db.(instances := db.instances - {key}, history := db.history - {key});
      var g' := g.(removed := g.removed + {key});
      OneActive(db') && Finality(db') && Known(db', g') && Accounted(db', g')
  {
    hide HasTerminal, TerminalOnlyLast, SubInstances, Among, Ids;
  }

  // ---------- activities ----------

  /** One token replaces another. */
  lemma SwapToken(db: Db, db': Db, g: Ledger, g': Ledger, owed: set<(Key, int)>, key: Key, id: int, kind: Kind,
                  before: Token, after: Token)
    requires ActivitiesSettle(db, g) && TimersSettle(db, g) && SubWorkflowsSettle(db, g, owed)
    requires g'.removed == g.removed && db'.history == db.history
    requires Holds(db, key, id, kind, before)
    requires forall k, i, l, t :: Holds(db', k, i, l, t) <==>
               (Holds(db, k, i, l, t) && t != before) || (k == key && i == id && l == kind && t == after)
    requires forall k, i, l :: Holds(db, k, i, l, before) ==> k == key && i == id && l == kind
    requires forall row :: row in db'.pending && row.event.attributes.TimerFired? ==> row in db.pending
    ensures ActivitiesSettle(db', g') && TimersSettle(db', g') && SubWorkflowsSettle(db', g', owed)
  {
    hide Holds, Ids;
    forall k, i, l
      ensures ExactlyOne(db, k, i, l) ==> ExactlyOne(db', k, i, l)
      ensures NoToken(db, k, i, l) ==> NoToken(db', k, i, l)
    {
      if k == key && i == id && l == kind {
        if ExactlyOne(db, k, i, l) {
          assert Holds(db', k, i, l, after);
        }
      } else {
        SameCount(db, db', k, i, l);
      }
    }
  }

  /** Completing an activity turns its row into its pending result. */
  lemma CompleteActivityKeeps(db: Db, g: Ledger, w: Worker, key: Key, id: Name, result: Event)
    requires Inv(db, g, {}) && CompleteActivityTask(db, w, key, id, result) != Abort(NotLocked)
    requires KindOf(result.attributes) == Some(ActivityEnd) && result.visibleAt.None?
    requires result.scheduleEventID == db.activities[id].event.scheduleEventID && result.id !in g.owner
    ensures CompleteActivityTask(db, w, key, id, result).Commit?
    ensures Inv(CompleteActivityTask(db, w, key, id, result).db, Accept(g, key, [result]), {})
  {
    hide Structure, ActivitiesSettle, TimersSettle, SubWorkflowsSettle, PendingConflict;
    var without := db.(activities := db.activities - {id});
    FewerActivities(db, g, id);
    AddRows(without, g, key, [result]);
    var db' := CompleteActivityTask(db, w, key, id, result).db;
    var token := Waiting(PendingRow(key, result));
    var sid := result.scheduleEventID;
    forall k, i, l, t
      ensures Holds(db', k, i, l, t) <==>
              (Holds(db, k, i, l, t) && t != Job(id)) || (k == key && i == sid && l == ActivityEnd && t == token)
    {
      AddedTokens(without, key, [result], k, i, l, t);
      assert RowsFor(key, [result]) == {PendingRow(key, result)};
    }
    SwapToken(db, db', g, Accept(g, key, [result]), {}, key, sid, ActivityEnd, Job(id), token);
  }

  lemma FewerActivities(db: Db, g: Ledger, id: Name)
    requires Structure(db, g)
    ensures Structure(db.(activities := db.activities - {id}), g)
  {
    hide Once, Deliveries, Sequenced, OneActive, Finality, Known, Accounted;
    var db' := db.(activities := db.activities - {id});
    assert Owned(db', g);
    assert Once(db') && Deliveries(db') && Sequenced(db') by { LessOnce(db, db'); }
    LessFinality(db, db', g);
    SameAccounted(db, db', g, g);
  }

  lemma LessOnce(db: Db, db': Db)
    requires Once(db) && Deliveries(db) && Sequenced(db) && db'.pending == db.pending && db'.history == db.history
    ensures Once(db') && Deliveries(db') && Sequenced(db')
  {
    hide DistinctIds, Deliverable, NumberedFrom;
  }

  lemma LessFinality(db: Db, db': Db, g: Ledger)
    requires OneActive(db) && Finality(db) && Known(db, g) && db'.instances == db.instances && db'.history == db.history
    ensures OneActive(db') && Finality(db') && Known(db', g)
  {
    hide HasTerminal, TerminalOnlyLast, SubInstances;
  }

  // ---------- client requests ----------

  /** A request of a client is a new event that is nobody's outcome. */
  predicate Request(g: Ledger, e: Event) {
    e.id !in g.owner && e.visibleAt.None? &&
    (e.attributes.ExecutionStarted? || e.attributes.ExecutionCanceled? || e.attributes.SignalReceived?)
  }

  lemma RequestInsertable(g: Ledger, e: Event)
    requires Request(g, e)
    ensures Insertable(g, [e]) && KindOf(e.attributes).None?
  {
  }

  /** A client's new execution. */
  lemma CreateKeeps(db: Db, g: Ledger, i: Instance, e: Event)
    requires Inv(db, g, {}) && Request(g, e) && e.attributes.ExecutionStarted?
    requires i.parent.None? && i.executionID !in g.executions && !HasActive(db, i.instanceID)
    ensures CreateWorkflowInstance(db, i, e).Commit?
    ensures Inv(CreateWorkflowInstance(db, i, e).db,
                Accept(g.(executions := g.executions + {i.executionID}), KeyOf(i), [e]), {})
  {
    hide Owned, Once, Deliveries, Sequenced, OneActive, Finality, Accounted, ActivitiesSettle, TimersSettle,
         SubWorkflowsSettle,
         PendingConflict, HasActive, Accept, RowsFor;
    assert KeyOf(i) !in db.instances && KeyOf(i) !in g.removed;
    AddInstance(db, g, {}, e.attributes.queue, i);
    var g1 := g.(executions := g.executions + {i.executionID});
    var db1 := CreateInstance(db, e.attributes.queue, i).db;
    var none: set<(Key, int)> := {};
    assert none - {} == none;
    RequestInsertable(g1, e);
    AddMessages(db1, g1, {}, KeyOf(i), [e]);
  }

  lemma DeliverKeeps(db: Db, g: Ledger, key: Key, e: Event)
    requires Inv(db, g, {}) && Request(g, e)
    ensures InsertPending(db, key, [e]).Commit?
    ensures Inv(InsertPending(db, key, [e]).db, Accept(g, key, [e]), {})
  {
    hide Inv, PendingConflict;
    RequestInsertable(g, e);
    AddMessages(db, g, {}, key, [e]);
  }
}
