/** The second half of completing a workflow task: messages reach other executions, and every debt is paid. */
module Delivery {
  import opened Basics
  import opened History
  import opened Commands
  import opened Execution
  import opened Histories
  import opened Contract
  import opened Decisions
  import opened Database
  import Tables
  import opened Ledgers
  import opened Recording
  import opened Bookkeeping
  import opened Settlement

  predicate Starts(w: WorkflowEvent) {
    w.event.attributes.ExecutionStarted?
  }

  /** The message starts the execution that continues the sender. */
  predicate Continuation(self: Instance, w: WorkflowEvent) {
    Starts(w) && w.instance.parent != Some(self)
  }

  predicate Message(source: nat, w: WorkflowEvent) {
    && w.event.visibleAt.None? && w.event.id.Drawn? && w.event.id.source == source && w.event.id.role == ForMessage
    && (Starts(w) || w.event.attributes.ExecutionCanceled? ||
        KindOf(w.event.attributes) == Some(SubWorkflowEnd))
    && (Starts(w) ==>
          w.instance.executionID.Drawn? && w.instance.executionID.source == source)
  }

  /** Two messages that have anything to do with each other are the same. */
  predicate Apart(self: Instance, w: WorkflowEvent, v: WorkflowEvent) {
    && (w.event.id == v.event.id ==> w == v)
    && (Starts(w) && v.instance == w.instance ==> w == v)
    && (Starts(w) && Starts(v) && w.instance.executionID == v.instance.executionID ==> w == v)
    && (Continuation(self, w) && Starts(v) ==> w == v)
    && (KindOf(w.event.attributes).Some? && KindOf(v.event.attributes).Some? ==> w == v)
    && (Debt(w) * Debt(v) != {} ==> w == v)
  }

  predicate Addressed(self: Instance, source: nat, ws: seq<WorkflowEvent>) {
    && DistinctIds(EventsOf(ws))
    && (forall w :: w in ws ==> Message(source, w))
    && (forall w, v :: w in ws && v in ws ==> Apart(self, w, v))
  }

  // ---------- the messages of an honest report are well addressed ----------

  lemma SameMessage(ws: seq<WorkflowEvent>, w: WorkflowEvent, v: WorkflowEvent)
    requires DistinctIds(EventsOf(ws)) && w in ws && v in ws && w.event.id == v.event.id
    ensures w == v
  {
    var i :| 0 <= i < |ws| && ws[i] == w;
    var j :| 0 <= j < |ws| && ws[j] == v;
    assert EventsOf(ws)[i].id == EventsOf(ws)[j].id;
  }

  /** Every other message goes to an execution that is known already. */
  lemma KnownTarget(db: Db, g: Ledger, f: Report, v: WorkflowEvent)
    requires Timely(db, g, f) && Structure(db, g) && v in f.result.workflowEvents && !Starts(v)
    ensures v.instance.executionID in g.executions
  {
    hide Honest, Collect, Ids, Started, Owned, Once, Sequenced, OneActive, Finality, Accounted;
    HonestIsDecided(db, g, f);
    MessageMeans(f.commands, db.HistoryOf(f.Key()), f.task.instance, f.source, f.now, v);
    if v.event.attributes.ExecutionCanceled? {
      assert (v.event.id.number, v.instance) in SubInstances(db.HistoryOf(f.Key()));
    }
  }

  /** So only a start message addresses a new execution. */
  lemma StartsAreNew(db: Db, g: Ledger, f: Report, w: WorkflowEvent, v: WorkflowEvent)
    requires Timely(db, g, f) && Structure(db, g) && w in f.result.workflowEvents && v in f.result.workflowEvents
    requires Starts(w) && w.instance.executionID == v.instance.executionID
    ensures Starts(v) && w.event.id == v.event.id
  {
    hide Honest, Collect, Ids, Started, Structure, SubInstances, Decided;
    HonestIsDecided(db, g, f);
    MessageMeans(f.commands, db.HistoryOf(f.Key()), f.task.instance, f.source, f.now, w);
    MessageMeans(f.commands, db.HistoryOf(f.Key()), f.task.instance, f.source, f.now, v);
    if !Starts(v) {
      KnownTarget(db, g, f, v);
    }
  }

  lemma HonestIsAddressed(db: Db, g: Ledger, f: Report)
    requires Inv(db, g, {}) && Timely(db, g, f)
    ensures Addressed(f.task.instance, f.source, f.result.workflowEvents)
  {
    hide Honest, Collect, Structure, Timely, ActivitiesSettle, TimersSettle, SubWorkflowsSettle, Message, Apart;
    HonestIsDecided(db, g, f);
    CollectDistinct(f.commands, f.now, f.source);
    forall w | w in f.result.workflowEvents
      ensures Message(f.source, w)
    {
      HonestMessage(db, g, f, w);
    }
    forall w, v | w in f.result.workflowEvents && v in f.result.workflowEvents
      ensures Apart(f.task.instance, w, v)
    {
      HonestApart(db, g, f, w, v);
    }
  }

  lemma HonestMessage(db: Db, g: Ledger, f: Report, w: WorkflowEvent)
    requires Timely(db, g, f) && w in f.result.workflowEvents
    ensures Message(f.source, w)
  {
    hide Honest, Collect, Decided;
    HonestIsDecided(db, g, f);
    MessageMeans(f.commands, db.HistoryOf(f.Key()), f.task.instance, f.source, f.now, w);
  }

  lemma HonestApart(db: Db, g: Ledger, f: Report, w: WorkflowEvent, v: WorkflowEvent)
    requires Inv(db, g, {}) && Timely(db, g, f)
    requires w in f.result.workflowEvents && v in f.result.workflowEvents
    requires DistinctIds(EventsOf(f.result.workflowEvents))
    ensures Apart(f.task.instance, w, v)
  {
    hide Honest, Collect, Structure, Timely, ActivitiesSettle, TimersSettle, SubWorkflowsSettle, Decided, Debt,
         DistinctIds, EventsOf;
    HonestIsDecided(db, g, f);
    var h := db.HistoryOf(f.Key());
    MessageMeans(f.commands, h, f.task.instance, f.source, f.now, w);
    MessageMeans(f.commands, h, f.task.instance, f.source, f.now, v);
    if w != v {
      if w.event.id == v.event.id {
        SameMessage(f.result.workflowEvents, w, v);
      }
      if Starts(w) && w.instance.executionID == v.instance.executionID {
        StartsAreNew(db, g, f, w, v);
      }
      if Continuation(f.task.instance, w) && Starts(v) {
        ContinuationIsOnlyStart(f.commands, h, f.task.instance, f.source, f.now, v);
      }
      assert Debt(w) * Debt(v) == {} by { DebtsApart(db, g, f, w, v); }
    }
  }

  lemma DebtsApart(db: Db, g: Ledger, f: Report, w: WorkflowEvent, v: WorkflowEvent)
    requires Inv(db, g, {}) && Timely(db, g, f)
    requires w in f.result.workflowEvents && v in f.result.workflowEvents && w.event.id != v.event.id
    ensures Debt(w) * Debt(v) == {}
  {
    hide Honest, Collect, Structure, Timely, ActivitiesSettle, TimersSettle, SubWorkflowsSettle, Decided, Debt,
         DistinctIds, Ids;
    HonestMessage(db, g, f, w);
    HonestMessage(db, g, f, v);
    forall d | d in Debt(w) && d in Debt(v)
      ensures false
    {
      assert Deliveries(db) by { InvDeliveries(db, g); }
      DebtMeans(db, g, f, d, w);
      DebtMeans(db, g, f, d, v);
      if d.0 == f.Key() && d.1 in Ids(f.result.executed, SubWorkflowStart) {
        FreshPlace(db, g, f, d.1, SubWorkflowStart);
        OwnDebtIsOld(db, g, f, d);
      }
    }
  }

  lemma InvDeliveries(db: Db, g: Ledger)
    requires Structure(db, g)
    ensures Deliveries(db)
  {
  }

  /** What an ending sub-workflow owes was recorded by its parent before. */
  lemma OwnDebtIsOld(db: Db, g: Ledger, f: Report, d: (Key, int))
    requires Inv(db, g, {}) && Timely(db, g, f) && d.0 !in g.removed
    ensures OwnDebt(f, d) ==> d.1 in Ids(db.HistoryOf(d.0), SubWorkflowStart)
  {
    hide Structure, Ids, Honest, Fresh, ActivitiesSettle, TimersSettle;
    if OwnDebt(f, d) {
      HeldKey(db, g, f);
      assert Holds(db, d.0, d.1, SubWorkflowEnd, Child(f.Key()));
      assert !NoToken(db, d.0, d.1, SubWorkflowEnd);
    }
  }

  // ---------- delivering the groups ----------

  predicate Unborn(db: Db, g: Ledger, executionID: Name) {
    && (forall k :: k in db.instances ==> k.executionID != executionID)
    && (forall k :: k in g.removed ==> k.executionID != executionID)
  }

  predicate Left(order: seq<Instance>, i: nat, w: WorkflowEvent)
    requires i <= |order|
  {
    w.instance in order[i..]
  }

  function DebtsLeft(ws: seq<WorkflowEvent>, order: seq<Instance>, i: nat): set<(Key, int)>
    requires i <= |order|
  {
    set w, d | w in ws && Left(order, i, w) && d in Debt(w) :: d
  }

  /** The message can still be delivered. */
  predicate CanDeliver(db: Db, g: Ledger, self: Instance, w: WorkflowEvent) {
    && w.event.id !in g.owner
    && (Starts(w) ==>
          && Unborn(db, g, w.instance.executionID)
          && (w.instance.parent.Some? ==> w.instance.parent.value.executionID in g.executions)
          && (Continuation(self, w) ==> !HasActive(db, w.instance.instanceID)))
  }

  ghost predicate Delivering(db: Db, g: Ledger, self: Instance, source: nat, ws: seq<WorkflowEvent>,
                             order: seq<Instance>, i: nat)
    requires i <= |order|
  {
    && Inv(db, g, DebtsLeft(ws, order, i))
    && (forall w :: w in ws && Left(order, i, w) ==> CanDeliver(db, g, self, w))
    && (forall n: nat :: n >= i ==> Drawn(source, ForConflict, n) !in g.owner)
  }

  /** What delivering messages may change. */
  predicate Extends(db: Db, g: Ledger, db': Db, g': Ledger, source: nat) {
    && (forall k :: k in db.instances ==> k in db'.instances && db'.instances[k] == db.instances[k])
    && (forall k :: k in db'.instances && k !in db.instances ==>
          k.executionID.Drawn? && k.executionID.source == source && Newborn(db'.instances[k]))
    && db'.history == db.history && db'.activities == db.activities && db.pending <= db'.pending
    && (forall n :: n in g.owner ==> n in g'.owner)
    && (forall n :: n in g'.owner && n !in g.owner ==> n.Drawn? && n.source == source)
    && (forall n :: n in g.executions ==> n in g'.executions)
    && (forall n :: n in g'.executions && n !in g.executions ==> n.Drawn? && n.source == source)
    && g'.removed == g.removed && g.accepted <= g'.accepted
  }

  lemma LeftStep(order: seq<Instance>, i: nat, w: WorkflowEvent)
    requires i < |order| && forall a, b :: 0 <= a < b < |order| ==> order[a] != order[b]
    ensures Left(order, i, w) <==> w.instance == order[i] || Left(order, i + 1, w)
    ensures w.instance == order[i] ==> !Left(order, i + 1, w)
  {
    var rest := order[i + 1..];
    assert order[i..] == [order[i]] + rest;
    assert forall j :: 0 <= j < |rest| ==> rest[j] != order[i];
  }

  predicate DistinctTargets(order: seq<Instance>) {
    forall a, b :: 0 <= a < b < |order| ==> order[a] != order[b]
  }

  /** Delivering one target's messages pays exactly their debts. */
  lemma DebtsStep(self: Instance, source: nat, ws: seq<WorkflowEvent>, order: seq<Instance>, i: nat)
    requires Addressed(self, source, ws) && i < |order| && DistinctTargets(order)
    ensures DebtsLeft(ws, order, i + 1) ==
            DebtsLeft(ws, order, i) - (set w, d | w in ws && w.instance == order[i] && d in Debt(w) :: d)
  {
    hide Left, Debt, Message, EventsOf;
    var now := set w, d | w in ws && w.instance == order[i] && d in Debt(w) :: d;
    forall w ensures (Left(order, i, w) <==> w.instance == order[i] || Left(order, i + 1, w)) &&
                     (w.instance == order[i] ==> !Left(order, i + 1, w))
    {
      LeftStep(order, i, w);
    }
    forall w, v | w in ws && v in ws && w.instance == order[i] && Left(order, i + 1, v)
      ensures Debt(w) * Debt(v) == {}
    {
      assert Apart(self, w, v);
    }
    forall d
      ensures d in DebtsLeft(ws, order, i + 1) <==> d in DebtsLeft(ws, order, i) && d !in now
    {
      if d in DebtsLeft(ws, order, i + 1) && d in now {
        var v :| v in ws && Left(order, i + 1, v) && d in Debt(v);
        var w :| w in ws && w.instance == order[i] && d in Debt(w);
        NotBoth(d, Debt(w), Debt(v));
      }
    }
  }

  lemma NotBoth(d: (Key, int), a: set<(Key, int)>, b: set<(Key, int)>)
    requires a * b == {} && d in a
    ensures d !in b
  {
    assert d in b ==> d in a * b;
  }

  /** The event of a message in front is none of the others. */
  lemma FirstApart(w: WorkflowEvent, rest: seq<WorkflowEvent>)
    ensures EventsOf([w] + rest) == [w.event] + EventsOf(rest)
    ensures DistinctIds(EventsOf([w] + rest)) <==>
            DistinctIds(EventsOf(rest)) && forall v :: v in rest ==> v.event.id != w.event.id
  {
    hide DistinctIds;
    assert EventsOf([w] + rest) == [w.event] + EventsOf(rest);
    DistinctSplit([w.event], EventsOf(rest));
    GroupEvents(rest);
    assert DistinctIds([w.event]) by { OneIsDistinct(w.event); }
  }

  lemma OneIsDistinct(e: Event)
    ensures DistinctIds([e])
  {
  }

  lemma {:induction false} GroupIds(ws: seq<WorkflowEvent>, target: Instance)
    requires DistinctIds(EventsOf(ws))
    ensures DistinctIds(EventsOf(GroupOf(ws, target)))
    decreases |ws|
  {
    hide DistinctIds, EventsOf;
    if ws == [] {
      assert GroupOf(ws, target) == ws;
    } else {
      assert ws == [ws[0]] + ws[1..];
      FirstApart(ws[0], ws[1..]);
      GroupIds(ws[1..], target);
      GroupMember(ws[1..], target);
      var rest := GroupOf(ws[1..], target);
      FirstApart(ws[0], rest);
      assert GroupOf(ws, target) == if ws[0].instance == target then [ws[0]] + rest else rest;
    }
  }

  /** A start message is alone in its group. */
  lemma StartAlone(self: Instance, source: nat, ws: seq<WorkflowEvent>, target: Instance)
    requires Addressed(self, source, ws) && GroupOf(ws, target) != [] && Starts(GroupOf(ws, target)[0])
    ensures GroupOf(ws, target) == [GroupOf(ws, target)[0]]
  {
    hide Message, Debt, Continuation;
    var group := GroupOf(ws, target);
    GroupIds(ws, target);
    GroupMember(ws, target);
    forall j | 0 < j < |group|
      ensures group[j] == group[0]
    {
      assert group[j] in group && group[0] in group;
      assert Apart(self, group[0], group[j]);
    }
    if |group| > 1 {
      Duplicate(group);
    }
  }

  lemma Duplicate(group: seq<WorkflowEvent>)
    requires |group| > 1 && group[1] == group[0]
    ensures !DistinctIds(EventsOf(group))
  {
    assert EventsOf(group)[0].id == EventsOf(group)[1].id;
  }

  /** What was deliverable stays so, whatever other messages are delivered. */
  lemma StillDeliverable(db: Db, g: Ledger, db': Db, g': Ledger, self: Instance, source: nat, ws: seq<WorkflowEvent>,
                         w: WorkflowEvent, ids: set<Name>, started: Option<(WorkflowEvent, InstanceRow)>)
    requires Addressed(self, source, ws) && w in ws && CanDeliver(db, g, self, w)
    requires g'.owner.Keys == g.owner.Keys + ids && w.event.id !in ids
    requires g'.removed == g.removed && g.executions <= g'.executions
    requires started.Some? ==> started.value.0 in ws && started.value.0 != w && Starts(started.value.0)
    requires db'.instances ==
             if started.Some? then db.instances[KeyOf(started.value.0.instance) := started.value.1] else db.instances
    ensures CanDeliver(db', g', self, w)
  {
    hide Message, Debt, EventsOf;
    if started.Some? {
      assert Apart(self, w, started.value.0);
    }
  }

  lemma GroupEvents(group: seq<WorkflowEvent>)
    ensures forall w :: w in group ==> w.event in EventsOf(group)
    ensures forall e :: e in EventsOf(group) ==> exists w :: w in group && w.event == e
  {
    forall w | w in group
      ensures w.event in EventsOf(group)
    {
      var i :| 0 <= i < |group| && group[i] == w;
      assert EventsOf(group)[i] == w.event;
    }
    forall e | e in EventsOf(group)
      ensures exists w :: w in group && w.event == e
    {
      var i :| 0 <= i < |group| && EventsOf(group)[i] == e;
      assert group[i] in group;
    }
  }

  lemma GroupInsertable(db: Db, g: Ledger, self: Instance, source: nat, ws: seq<WorkflowEvent>, order: seq<Instance>,
                        i: nat)
    requires Addressed(self, source, ws) && i < |order| && DistinctTargets(order)
    requires forall w :: w in ws && Left(order, i, w) ==> CanDeliver(db, g, self, w)
    ensures Insertable(g, EventsOf(GroupOf(ws, order[i])))
    ensures forall w :: w in ws && Left(order, i + 1, w) ==> w.event.id !in IdsOf(EventsOf(GroupOf(ws, order[i])))
    ensures forall n :: Drawn(source, ForConflict, n) !in IdsOf(EventsOf(GroupOf(ws, order[i])))
  {
    hide Debt, Continuation, EventsOf, Left, Unborn;
    var group := GroupOf(ws, order[i]);
    GroupMember(ws, order[i]);
    GroupIds(ws, order[i]);
    GroupEvents(group);
    forall w
      ensures Left(order, i, w) <==> w.instance == order[i] || Left(order, i + 1, w)
      ensures w.instance == order[i] ==> !Left(order, i + 1, w)
    {
      LeftStep(order, i, w);
    }
    forall e | e in EventsOf(group)
      ensures e.id !in g.owner && Contract.Deliverable(e.attributes) && e.visibleAt.None? && !e.attributes.TimerFired?
      ensures forall n :: Drawn(source, ForConflict, n) != e.id
      ensures forall v :: v in ws && Left(order, i + 1, v) ==> v.event.id != e.id
    {
      var w :| w in group && w.event == e;
      assert Message(source, w);
      forall v | v in ws && Left(order, i + 1, v)
        ensures v.event.id != e.id
      {
        assert Apart(self, w, v);
      }
    }
  }

  // ---------- one group ----------

  predicate Laid(self: Instance, source: nat, ws: seq<WorkflowEvent>, order: seq<Instance>, i: nat) {
    Addressed(self, source, ws) && DistinctTargets(order) && i < |order| && GroupOf(ws, order[i]) != []
  }

  /** The debts of the group itself. */
  function Due(ws: seq<WorkflowEvent>, target: Instance): set<(Key, int)> {
    set w, d | w in ws && w.instance == target && d in Debt(w) :: d
  }

  /** Delivered messages leave the others deliverable. */
  lemma DeliveredGroup(db: Db, g: Ledger, db': Db, g': Ledger, self: Instance, source: nat, ws: seq<WorkflowEvent>,
                       order: seq<Instance>, i: nat, ids: set<Name>, started: Option<(WorkflowEvent, InstanceRow)>)
    requires Laid(self, source, ws, order, i) && Delivering(db, g, self, source, ws, order, i)
    requires Inv(db', g', DebtsLeft(ws, order, i) - Due(ws, order[i]))
    requires g'.owner.Keys == g.owner.Keys + ids
    requires ids == IdsOf(EventsOf(GroupOf(ws, order[i]))) || ids == {Drawn(source, ForConflict, i)}
    requires g'.removed == g.removed && g.executions <= g'.executions
    requires started.Some? ==> started.value.0 in ws && Starts(started.value.0) && started.value.0.instance == order[i]
    requires db'.instances ==
             if started.Some? then db.instances[KeyOf(started.value.0.instance) := started.value.1] else db.instances
    ensures Delivering(db', g', self, source, ws, order, i + 1)
  {
    hide Inv, Debt, EventsOf, Left, CanDeliver, Continuation, DebtsLeft, Due;
    GroupInsertable(db, g, self, source, ws, order, i);
    DebtsStep(self, source, ws, order, i);
    assert Due(ws, order[i]) == (set w, d | w in ws && w.instance == order[i] && d in Debt(w) :: d) by { DueMeans(ws, order[i]); }
    forall w | w in ws && Left(order, i + 1, w)
      ensures CanDeliver(db', g', self, w)
    {
      LeftStep(order, i, w);
      assert Message(source, w);
      StillDeliverable(db, g, db', g', self, source, ws, w, ids, started);
    }
  }

  lemma DueMeans(ws: seq<WorkflowEvent>, target: Instance)
    ensures Due(ws, target) == set w, d | w in ws && w.instance == target && d in Debt(w) :: d
  {
  }

  /** The debts due with a group, and that they are left. */
  lemma DueNow(self: Instance, source: nat, ws: seq<WorkflowEvent>, order: seq<Instance>, i: nat, w: WorkflowEvent)
    requires Laid(self, source, ws, order, i) && w in ws && w.instance == order[i]
    ensures Debt(w) <= DebtsLeft(ws, order, i)
    ensures (forall v :: v in ws && v.instance == order[i] && v != w ==> Debt(v) == {}) ==> Due(ws, order[i]) == Debt(w)
    ensures (forall v :: v in ws && v.instance == order[i] ==> Debt(v) == {}) ==> Due(ws, order[i]) == {}
  {
    hide Debt, Addressed, DistinctTargets;
    LeftHead(order, i, w);
  }

  lemma LeftHead(order: seq<Instance>, i: nat, w: WorkflowEvent)
    requires i < |order| && w.instance == order[i]
    ensures Left(order, i, w)
  {
    assert order[i..][0] == order[i];
  }

  /** The events one group adds, and whose they are. */
  function EnterGroup(db: Db, g: Ledger, self: Instance, target: Instance, group: seq<WorkflowEvent>, now: Time,
                      source: nat, i: nat)
    : Ledger
    requires group != []
  {
    if Starts(group[0]) && HasActive(db, target.instanceID) then
      Accept(g, KeyOf(self), [ConflictEvent(group[0].instance, now, source, i)])
    else
      Accept(if Starts(group[0]) then g.(executions := g.executions + {target.executionID}) else g,
             KeyOf(target), EventsOf(group))
  }

  function EnterGroups(db: Db, g: Ledger, self: Instance, queue: Queue, order: seq<Instance>,
                       events: seq<WorkflowEvent>, now: Time,
                       source: nat, i: nat): Ledger
    requires i <= |order|
    requires forall t :: t in order ==> GroupOf(events, t) != []
    decreases |order| - i
  {
    if i == |order| then g
    else
      var group := GroupOf(events, order[i]);
      match DeliverGroup(db, self, queue, order[i], group, now, source, i)
      case Abort(_) => g
      case Commit(next) =>
        EnterGroups(next, EnterGroup(db, g, self, order[i], group, now, source, i), self, queue, order, events, now,
                    source, i + 1)
  }

  /** A new execution starts. */
  lemma DeliverStart(db: Db, g: Ledger, self: Instance, source: nat, ws: seq<WorkflowEvent>, order: seq<Instance>,
                     i: nat,
                     queue: Queue, now: Time) returns (db': Db, g': Ledger)
    requires Laid(self, source, ws, order, i) && Delivering(db, g, self, source, ws, order, i)
    requires Starts(GroupOf(ws, order[i])[0]) && !HasActive(db, order[i].instanceID)
    ensures DeliverGroup(db, self, queue, order[i], GroupOf(ws, order[i]), now, source, i) == Commit(db')
    ensures g' == EnterGroup(db, g, self, order[i], GroupOf(ws, order[i]), now, source, i)
    ensures Delivering(db', g', self, source, ws, order, i + 1) && Extends(db, g, db', g', source)
  {
    hide Inv, EventsOf, Left, DebtsLeft, Due, HasActive, Apart, PendingConflict, Delivering, Debt, Message,
         DistinctIds, IdsOf,
         Extends, DistinctTargets;
    var w := GroupOf(ws, order[i])[0];
    StartAlone(self, source, ws, order[i]);
    GroupMember(ws, order[i]);
    var q := if w.event.attributes.queue == "" then queue else w.event.attributes.queue;
    assert CanDeliver(db, g, self, w) &&
           Inv(db, g, DebtsLeft(ws, order, i)) by { HeadDeliverable(db, g, self, source, ws, order, i, w); }
    DueNow(self, source, ws, order, i, w);
    StartDue(self, source, ws, order, i, w);
    assert KeyOf(w.instance) !in db.instances && KeyOf(w.instance) !in g.removed;
    AddInstance(db, g, DebtsLeft(ws, order, i), q, w.instance);
    var db1 := CreateInstance(db, q, w.instance).db;
    var g1 := g.(executions := g.executions + {w.instance.executionID});
    var es := EventsOf(GroupOf(ws, order[i]));
    HeadInsertable(db, g, g1, self, source, ws, order, i);
    OnlyStart(es, w);
    AddMessages(db1, g1, DebtsLeft(ws, order, i) - Due(ws, order[i]), KeyOf(order[i]), es);
    db' := InsertPending(db1, KeyOf(order[i]), es).db;
    g' := Accept(g1, KeyOf(order[i]), es);
    DeliveredGroup(db, g, db', g', self, source, ws, order, i, IdsOf(es), Some((w, db1.instances[KeyOf(w.instance)])));
    ExtendsByGroup(db, g, db', g', self, source, ws, order[i]);
  }

  lemma OnlyStart(es: seq<Event>, w: WorkflowEvent)
    requires es == EventsOf([w]) && Starts(w)
    ensures forall e :: e in es ==> KindOf(e.attributes).None?
  {
    assert es == [w.event];
  }

  lemma HeadDeliverable(db: Db, g: Ledger, self: Instance, source: nat, ws: seq<WorkflowEvent>, order: seq<Instance>,
                        i: nat, w: WorkflowEvent)
    requires i < |order| && w in ws && w.instance == order[i] && Delivering(db, g, self, source, ws, order, i)
    ensures CanDeliver(db, g, self, w) && Inv(db, g, DebtsLeft(ws, order, i)) &&
            Drawn(source, ForConflict, i) !in g.owner
  {
    LeftHead(order, i, w);
  }

  lemma HeadInsertable(db: Db, g: Ledger, g1: Ledger, self: Instance, source: nat, ws: seq<WorkflowEvent>,
                       order: seq<Instance>, i: nat)
    requires Laid(self, source, ws, order, i) && Delivering(db, g, self, source, ws, order, i) && g1.owner == g.owner
    ensures Insertable(g1, EventsOf(GroupOf(ws, order[i])))
  {
    hide Inv, CanDeliver, Addressed;
    GroupInsertable(db, g, self, source, ws, order, i);
  }

  /** The debt of a start message is its parent link. */
  lemma StartDue(self: Instance, source: nat, ws: seq<WorkflowEvent>, order: seq<Instance>, i: nat, w: WorkflowEvent)
    requires Laid(self, source, ws, order, i) && w in ws && w.instance == order[i] && Starts(w)
    ensures Due(ws, order[i]) == Debt(w)
    ensures Debt(w) == if w.instance.parent.Some? then {(KeyOf(w.instance.parent.value), w.instance.parentEventID)} else {}
  {
    hide Message, EventsOf;
    forall v | v in ws && v.instance == order[i]
      ensures v == w
    {
      assert Apart(self, w, v);
    }
    DueNow(self, source, ws, order, i, w);
  }

  /** The owners a group adds are ids of its messages. */
  lemma GroupOwners(g: Ledger, g': Ledger, self: Instance, source: nat, ws: seq<WorkflowEvent>, target: Instance)
    requires Addressed(self, source, ws) && g'.owner.Keys == g.owner.Keys + IdsOf(EventsOf(GroupOf(ws, target)))
    ensures forall n :: n in g.owner ==> n in g'.owner
    ensures forall n :: n in g'.owner && n !in g.owner ==> n.Drawn? && n.source == source
  {
    hide EventsOf, Apart, DistinctIds;
    GroupMember(ws, target);
    GroupEvents(GroupOf(ws, target));
    forall n | n in g'.owner && n !in g.owner
      ensures n.Drawn? && n.source == source
    {
      var e :| e in EventsOf(GroupOf(ws, target)) && e.id == n;
      var w :| w in GroupOf(ws, target) && w.event == e;
      assert Message(source, w);
    }
  }

  lemma StartedExecution(self: Instance, source: nat, ws: seq<WorkflowEvent>, w: WorkflowEvent)
    requires Addressed(self, source, ws) && w in ws && Starts(w)
    ensures w.instance.executionID.Drawn? && w.instance.executionID.source == source
  {
    hide EventsOf, Apart, DistinctIds;
    assert Message(source, w);
  }

  /** The executions a group adds are named by the report. */
  lemma GroupExecutions(g: Ledger, g': Ledger, self: Instance, source: nat, ws: seq<WorkflowEvent>)
    requires Addressed(self, source, ws)
    requires g'.executions == g.executions ||
             exists w :: w in ws && Starts(w) && g'.executions == g.executions + {w.instance.executionID}
    ensures forall n :: n in g.executions ==> n in g'.executions
    ensures forall n :: n in g'.executions && n !in g.executions ==> n.Drawn? && n.source == source
  {
    hide Addressed, Starts;
    if g'.executions != g.executions {
      var w :| w in ws && Starts(w) && g'.executions == g.executions + {w.instance.executionID};
      StartedExecution(self, source, ws, w);
    }
  }

  /** So are the instances. */
  lemma GroupInstances(db: Db, db': Db, self: Instance, source: nat, ws: seq<WorkflowEvent>)
    requires Addressed(self, source, ws)
    requires db'.instances == db.instances ||
             (exists w, row: InstanceRow {:trigger db.instances[KeyOf(w.instance) := row]} ::
                w in ws && Starts(w) && Newborn(row) && KeyOf(w.instance) !in db.instances &&
                db'.instances == db.instances[KeyOf(w.instance) := row])
    ensures forall k :: k in db.instances ==> k in db'.instances && db'.instances[k] == db.instances[k]
    ensures forall k :: k in db'.instances && k !in db.instances ==>
              k.executionID.Drawn? && k.executionID.source == source && Newborn(db'.instances[k])
  {
    hide Addressed, Starts;
    if db'.instances != db.instances {
      var w: WorkflowEvent, row: InstanceRow {:trigger db.instances[KeyOf(w.instance) := row]} :|
        w in ws && Starts(w) && Newborn(row) && KeyOf(w.instance) !in db.instances &&
        db'.instances == db.instances[KeyOf(w.instance) := row];
      StartedExecution(self, source, ws, w);
    }
  }

  lemma ExtendsByGroup(db: Db, g: Ledger, db': Db, g': Ledger, self: Instance, source: nat, ws: seq<WorkflowEvent>,
                       target: Instance)
    requires Addressed(self, source, ws)
    requires db'.history == db.history && db'.activities == db.activities && db.pending <= db'.pending
    requires db'.instances == db.instances ||
             (exists w, row: InstanceRow {:trigger db.instances[KeyOf(w.instance) := row]} ::
                w in ws && Starts(w) && Newborn(row) && KeyOf(w.instance) !in db.instances &&
                db'.instances == db.instances[KeyOf(w.instance) := row])
    requires g'.owner.Keys == g.owner.Keys + IdsOf(EventsOf(GroupOf(ws, target)))
    requires g'.executions == g.executions ||
             exists w :: w in ws && Starts(w) && g'.executions == g.executions + {w.instance.executionID}
    requires g'.removed == g.removed && g.accepted <= g'.accepted
    ensures Extends(db, g, db', g', source)
  {
    hide Addressed, Starts, IdsOf, EventsOf, GroupOf;
    GroupOwners(g, g', self, source, ws, target);
    GroupExecutions(g, g', self, source, ws);
    GroupInstances(db, db', self, source, ws);
  }

  /** The id of a new execution is taken: the sender is told that the sub-workflow failed. */
  lemma DeliverConflict(db: Db, g: Ledger, self: Instance, source: nat, ws: seq<WorkflowEvent>, order: seq<Instance>,
                        i: nat,
                        queue: Queue, now: Time) returns (db': Db, g': Ledger)
    requires Laid(self, source, ws, order, i) && Delivering(db, g, self, source, ws, order, i)
    requires Starts(GroupOf(ws, order[i])[0]) && HasActive(db, order[i].instanceID)
    ensures DeliverGroup(db, self, queue, order[i], GroupOf(ws, order[i]), now, source, i) == Commit(db')
    ensures g' == EnterGroup(db, g, self, order[i], GroupOf(ws, order[i]), now, source, i)
    ensures Delivering(db', g', self, source, ws, order, i + 1) && Extends(db, g, db', g', source)
    ensures exists row ::
              && row !in db.pending && db' == db.(pending := db.pending + {row})
              && row.key.instanceID == self.instanceID && row.key.executionID == self.executionID
              && row.event.attributes == SubWorkflowFailed(Error.InstanceAlreadyExists) && row.event.visibleAt.None?
              && row.event.scheduleEventID == order[i].parentEventID
  {
    hide Inv, EventsOf, Left, DebtsLeft, Due, HasActive, Apart, PendingConflict, Delivering, Addressed, Debt;
    var w := GroupOf(ws, order[i])[0];
    GroupMember(ws, order[i]);
    HeadDeliverable(db, g, self, source, ws, order, i, w);
    StartDue(self, source, ws, order, i, w);
    DueNow(self, source, ws, order, i, w);
    var e := ConflictEvent(w.instance, now, source, i);
    assert Insertable(g, [e]);
    AddOutcome(db, g, DebtsLeft(ws, order, i), KeyOf(self), [e], e);
    db' := InsertPending(db, KeyOf(self), [e]).db;
    g' := Accept(g, KeyOf(self), [e]);
    assert IdsOf([e]) == {e.id};
    Tables.RefusalInserted(db, self, w.instance, now, source, i);
    DeliveredGroup(db, g, db', g', self, source, ws, order, i, {e.id}, None);
  }

  /** Messages for an execution that exists already, at most one of them an outcome. */
  lemma DeliverMessages(db: Db, g: Ledger, self: Instance, source: nat, ws: seq<WorkflowEvent>, order: seq<Instance>,
                        i: nat,
                        queue: Queue, now: Time) returns (db': Db, g': Ledger)
    requires Laid(self, source, ws, order, i) && Delivering(db, g, self, source, ws, order, i)
    requires !Starts(GroupOf(ws, order[i])[0])
    ensures DeliverGroup(db, self, queue, order[i], GroupOf(ws, order[i]), now, source, i) == Commit(db')
    ensures g' == EnterGroup(db, g, self, order[i], GroupOf(ws, order[i]), now, source, i)
    ensures Delivering(db', g', self, source, ws, order, i + 1) && Extends(db, g, db', g', source)
  {
    hide Inv, EventsOf, Left, DebtsLeft, Due, HasActive, Apart, PendingConflict, Delivering, Addressed;
    var es := EventsOf(GroupOf(ws, order[i]));
    GroupMember(ws, order[i]);
    HeadDeliverable(db, g, self, source, ws, order, i, GroupOf(ws, order[i])[0]);
    HeadInsertable(db, g, g, self, source, ws, order, i);
    var owed := DebtsLeft(ws, order, i);
    db' := db.(pending := db.pending + RowsFor(KeyOf(order[i]), es));
    g' := Accept(g, KeyOf(order[i]), es);
    if w :| w in ws && w.instance == order[i] && KindOf(w.event.attributes).Some? {
      OutcomeDue(self, source, ws, order, i, w);
      AddOutcome(db, g, owed, KeyOf(order[i]), es, w.event);
      assert owed - Due(ws, order[i]) == owed - {(KeyOf(order[i]), w.event.scheduleEventID)};
    } else {
      NothingDue(self, source, ws, order, i);
      AddMessages(db, g, owed, KeyOf(order[i]), es);
      assert owed - {} == owed;
    }
    DeliveredGroup(db, g, db', g', self, source, ws, order, i, IdsOf(es), None);
    ExtendsByGroup(db, g, db', g', self, source, ws, order[i]);
  }

  lemma OutcomeDue(self: Instance, source: nat, ws: seq<WorkflowEvent>, order: seq<Instance>, i: nat, w: WorkflowEvent)
    requires Laid(self, source, ws, order, i) && !Starts(GroupOf(ws, order[i])[0])
    requires w in ws && w.instance == order[i] && KindOf(w.event.attributes).Some?
    ensures KindOf(w.event.attributes) == Some(SubWorkflowEnd)
    ensures Due(ws, order[i]) == {(KeyOf(order[i]), w.event.scheduleEventID)}
    ensures Due(ws, order[i]) <= DebtsLeft(ws, order, i)
    ensures w.event in EventsOf(GroupOf(ws, order[i]))
    ensures forall e :: e in EventsOf(GroupOf(ws, order[i])) && e != w.event ==> KindOf(e.attributes).None?
  {
    hide Due, DebtsLeft, Message, Apart, Debt, EventsOf, Left;
    var group := GroupOf(ws, order[i]);
    GroupMember(ws, order[i]);
    GroupEvents(group);
    forall v | v in ws && v.instance == order[i] && v != w
      ensures Debt(v) == {} && KindOf(v.event.attributes).None?
    {
      NoSecondOutcome(self, w, v);
      NoStart(self, source, v, group[0]);
    }
    DueNow(self, source, ws, order, i, w);
    NoStart(self, source, w, group[0]);
    assert Debt(w) == {(KeyOf(order[i]), w.event.scheduleEventID)};
  }

  lemma NoSecondOutcome(self: Instance, w: WorkflowEvent, v: WorkflowEvent)
    requires Apart(self, w, v) && KindOf(w.event.attributes).Some? && v != w
    ensures KindOf(v.event.attributes).None?
  {
  }

  /** In the group of a message that starts nothing, no message does. */
  lemma NoStart(self: Instance, source: nat, v: WorkflowEvent, first: WorkflowEvent)
    requires Message(source, v) && Apart(self, v, first) && v.instance == first.instance && !Starts(first)
    ensures !Starts(v)
    ensures KindOf(v.event.attributes).None? ==> Debt(v) == {}
    ensures KindOf(v.event.attributes).Some? ==>
              KindOf(v.event.attributes) == Some(SubWorkflowEnd) && Debt(v) == {(KeyOf(v.instance), v.event.scheduleEventID)}
  {
  }

  lemma NothingDue(self: Instance, source: nat, ws: seq<WorkflowEvent>, order: seq<Instance>, i: nat)
    requires Laid(self, source, ws, order, i) && !Starts(GroupOf(ws, order[i])[0])
    requires forall w :: w in ws && w.instance == order[i] ==> KindOf(w.event.attributes).None?
    ensures Due(ws, order[i]) == {}
    ensures forall e :: e in EventsOf(GroupOf(ws, order[i])) ==> KindOf(e.attributes).None?
  {
    hide Due;
    var group := GroupOf(ws, order[i]);
    GroupMember(ws, order[i]);
    GroupEvents(group);
    forall v | v in ws && v.instance == order[i]
      ensures Debt(v) == {}
    {
      NoStart(self, source, v, group[0]);
    }
    DueNow(self, source, ws, order, i, group[0]);
  }

  lemma ExtendsTransitive(a: Db, ga: Ledger, b: Db, gb: Ledger, c: Db, gc: Ledger, source: nat)
    requires Extends(a, ga, b, gb, source) && Extends(b, gb, c, gc, source)
    ensures Extends(a, ga, c, gc, source)
  {
  }

  /** All groups are delivered, in whatever order, and every debt is paid. */
  lemma {:induction false} DeliverAll(db: Db, g: Ledger, self: Instance, source: nat, ws: seq<WorkflowEvent>,
                                      order: seq<Instance>, i: nat, queue: Queue, now: Time)
    returns (db': Db, g': Ledger)
    requires Addressed(self, source, ws) && IsOrder(order, ws) && i <= |order| &&
             Delivering(db, g, self, source, ws, order, i)
    ensures forall t :: t in order ==> GroupOf(ws, t) != []
    ensures DeliverGroups(db, self, queue, order, ws, now, source, i) == Commit(db')
    ensures g' == EnterGroups(db, g, self, queue, order, ws, now, source, i)
    ensures Inv(db', g', {}) && Extends(db, g, db', g', source)
    decreases |order| - i
  {
    hide Inv, Addressed, Extends, EnterGroup, DeliverGroup, Debt, HasActive, Delivering, GroupOf;
    OrderHasGroups(order, ws);
    if i == |order| {
      db', g' := db, g;
      AllDelivered(db, g, self, source, ws, order);
    } else {
      var db1, g1 := DeliverOne(db, g, self, source, ws, order, i, queue, now);
      db', g' := DeliverAll(db1, g1, self, source, ws, order, i + 1, queue, now);
      ExtendsTransitive(db, g, db1, g1, db', g', source);
    }
  }

  lemma DeliverOne(db: Db, g: Ledger, self: Instance, source: nat, ws: seq<WorkflowEvent>, order: seq<Instance>, i: nat,
                   queue: Queue, now: Time) returns (db': Db, g': Ledger)
    requires Laid(self, source, ws, order, i) && Delivering(db, g, self, source, ws, order, i)
    ensures DeliverGroup(db, self, queue, order[i], GroupOf(ws, order[i]), now, source, i) == Commit(db')
    ensures g' == EnterGroup(db, g, self, order[i], GroupOf(ws, order[i]), now, source, i)
    ensures Delivering(db', g', self, source, ws, order, i + 1) && Extends(db, g, db', g', source)
  {
    hide Delivering, Extends, DeliverGroup, EnterGroup, HasActive, Addressed;
    if !Starts(GroupOf(ws, order[i])[0]) {
      db', g' := DeliverMessages(db, g, self, source, ws, order, i, queue, now);
    } else if HasActive(db, order[i].instanceID) {
      db', g' := DeliverConflict(db, g, self, source, ws, order, i, queue, now);
    } else {
      db', g' := DeliverStart(db, g, self, source, ws, order, i, queue, now);
    }
  }

  lemma AllDelivered(db: Db, g: Ledger, self: Instance, source: nat, ws: seq<WorkflowEvent>, order: seq<Instance>)
    requires Delivering(db, g, self, source, ws, order, |order|)
    ensures Inv(db, g, {}) && Extends(db, g, db, g, source)
  {
    hide Inv;
    assert DebtsLeft(ws, order, |order|) == {};
  }

  // ---------- the whole transaction ----------

  /** After recording, every message can be delivered and the debts are the messages'. */
  lemma ReadyToDeliver(db: Db, after: Db, g: Ledger, f: Report, at: Time, stickyTimeout: int, order: seq<Instance>)
    requires Inv(db, g, {}) && Timely(db, g, f) && RecordedBy(db, after, f, at, stickyTimeout)
    requires Inv(after, Charged(g, f), Debts(f.result.workflowEvents)) && IsOrder(order, f.result.workflowEvents)
    ensures Delivering(after, Charged(g, f), f.task.instance, f.source, f.result.workflowEvents, order, 0)
  {
    hide Inv, Timely, RecordedBy, CanDeliver, Debt;
    var ws := f.result.workflowEvents;
    assert order[0..] == order;
    assert DebtsLeft(ws, order, 0) == Debts(ws);
    forall w | w in ws
      ensures CanDeliver(after, Charged(g, f), f.task.instance, w)
    {
      RecordedDeliverable(db, after, g, f, at, stickyTimeout, w);
    }
    forall n: nat
      ensures Drawn(f.source, ForConflict, n) !in Charged(g, f).owner
    {
      ChargedIds(db, g, f, Drawn(f.source, ForConflict, n));
    }
  }

  /** The ids a task draws are for its task event, its decisions and its timers. */
  lemma ChargedIds(db: Db, g: Ledger, f: Report, n: Name)
    requires Timely(db, g, f) && Inv(db, g, {}) && n.Drawn? && n.source == f.source
    ensures n in Charged(g, f).owner ==>
              n.role == ForTask || n.role == ForEvent || (n.role == ForMessage && n in IdsOf(f.result.timerEvents))
  {
    hide Honest, Collect, Held, Once, Sequenced, OneActive, Finality, Accounted, ActivitiesSettle, TimersSettle,
         SubWorkflowsSettle, Owned;
    if n in IdsOf(f.result.executed) {
      var e :| e in f.result.executed && e.id == n;
      var j :| 0 <= j < |f.result.executed| && f.result.executed[j] == e;
      ExecutedId(db, g, f, j);
    }
    TimersMean(db, g, f);
  }

  /** A timer and a message of one task come from different commands. */
  lemma TimerOrMessage(db: Db, g: Ledger, f: Report, w: WorkflowEvent)
    requires Timely(db, g, f) && w in f.result.workflowEvents
    ensures w.event.id !in IdsOf(f.result.timerEvents)
  {
    hide Honest, Collect, Held, Ids, Started, Decided;
    HonestIsDecided(db, g, f);
    EventsFromCommands(f.commands, f.now, f.source);
    forall e | e in f.result.timerEvents
      ensures e.id != w.event.id
    {
      var c := f.commands[At(f.commands, e.id)];
      EitherTimerOrMessage(c, f.now, f.source);
    }
  }

  lemma EitherTimerOrMessage(c: Command, now: Time, source: nat)
    ensures c.Execute(now, source).timerEvents == [] || c.Execute(now, source).workflowEvents == []
  {
  }

  lemma RecordedDeliverable(db: Db, after: Db, g: Ledger, f: Report, at: Time, stickyTimeout: int, w: WorkflowEvent)
    requires Inv(db, g, {}) && Timely(db, g, f) && RecordedBy(db, after, f, at, stickyTimeout) &&
             w in f.result.workflowEvents
    ensures CanDeliver(after, Charged(g, f), f.task.instance, w)
  {
    hide Inv, Timely, Honest, Collect, Ids, Started, RecordedBy;
    HonestMessage(db, g, f, w);
    TimerOrMessage(db, g, f, w);
    ChargedIds(db, g, f, w.event.id);
    if Starts(w) {
      RecordedUnborn(db, after, g, f, at, stickyTimeout, w);
      RecordedParent(db, g, f, w);
      if Continuation(f.task.instance, w) {
        NoActiveLeft(db, after, g, f, at, stickyTimeout, w);
      }
    }
  }

  lemma RecordedUnborn(db: Db, after: Db, g: Ledger, f: Report, at: Time, stickyTimeout: int, w: WorkflowEvent)
    requires Inv(db, g, {}) && Timely(db, g, f) && RecordedBy(db, after, f, at, stickyTimeout)
    requires w in f.result.workflowEvents && Starts(w)
    ensures Unborn(after, Charged(g, f), w.instance.executionID)
  {
    hide Honest, Collect, Ids, Started, Held, ActivitiesSettle, TimersSettle, SubWorkflowsSettle, Once, Owned,
         Sequenced, OneActive,
         Finality, Accounted, Deliveries, InTable, IsExecuted, IsCanceled, SubInstances;
    HonestMessage(db, g, f, w);
    HeldKey(db, g, f);
  }

  lemma RecordedParent(db: Db, g: Ledger, f: Report, w: WorkflowEvent)
    requires Inv(db, g, {}) && Timely(db, g, f) && w in f.result.workflowEvents && Starts(w)
    ensures w.instance.parent.Some? ==> w.instance.parent.value.executionID in g.executions
  {
    hide Honest, Collect, Ids, Started, Held, ActivitiesSettle, TimersSettle, SubWorkflowsSettle, Once, Owned,
         Sequenced, OneActive,
         Finality, Accounted, Deliveries, Decided, SubInstances;
    HeldKey(db, g, f);
    HonestIsDecided(db, g, f);
    MessageMeans(f.commands, db.HistoryOf(f.Key()), f.task.instance, f.source, f.now, w);
  }

  /** A continuation follows the only active execution, which is over. */
  lemma NoActiveLeft(db: Db, after: Db, g: Ledger, f: Report, at: Time, stickyTimeout: int, w: WorkflowEvent)
    requires Inv(db, g, {}) && Timely(db, g, f) && RecordedBy(db, after, f, at, stickyTimeout)
    requires w in f.result.workflowEvents && Continuation(f.task.instance, w)
    ensures !HasActive(after, w.instance.instanceID)
  {
    hide Honest, Collect, Ids, Started, Held, ActivitiesSettle, TimersSettle, SubWorkflowsSettle, Once, Owned,
         Sequenced,
         Finality, Accounted, Known, Decided, InTable, IsExecuted, IsCanceled;
    HeldKey(db, g, f);
    HonestIsDecided(db, g, f);
    MessageMeans(f.commands, db.HistoryOf(f.Key()), f.task.instance, f.source, f.now, w);
    ExecutedTerminal(db, g, f);
  }
}
