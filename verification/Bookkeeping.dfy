/** Once a task is recorded, events are still owned, unique, numbered and accounted for. */
module Bookkeeping {
  import opened Basics
  import opened History
  import opened Commands
  import opened Execution
  import opened Histories
  import opened Contract
  import opened Decisions
  import opened Database
  import opened Ledgers
  import opened Recording

  /** The execution ids of the sub-workflows a task starts. */
  function NewExecutions(events: seq<Event>): set<Name> {
    set e | e in events && e.attributes.SubWorkflowScheduled? :: e.attributes.instance.executionID
  }

  function Charged(g: Ledger, f: Report): Ledger {
    Own(g, f.Key(), IdsOf(f.result.executed) + IdsOf(f.result.timerEvents))
      .(accepted := g.accepted + RowsFor(f.Key(), f.result.timerEvents),
        executions := g.executions + NewExecutions(f.Decisions().events))
  }

  /** Every id in use keeps its owner. */
  lemma ChargedOwner(db: Db, g: Ledger, f: Report)
    requires Timely(db, g, f) && Owned(db, g)
    ensures forall n :: n in g.owner ==> n in Charged(g, f).owner && Charged(g, f).owner[n] == g.owner[n]
    ensures forall n :: n in IdsOf(f.result.executed) + IdsOf(f.result.timerEvents) ==>
              n in Charged(g, f).owner && Charged(g, f).owner[n] == f.Key()
  {
    hide Honest, Held, Collect, RowsFor, Owned, Insertable, NewExecutions;
    TimersMean(db, g, f);
    forall n | n in g.owner
      ensures n in IdsOf(f.result.executed) ==> g.owner[n] == f.Key()
      ensures n !in IdsOf(f.result.timerEvents)
    {
      if n in IdsOf(f.result.executed) {
        var e :| e in f.result.executed && e.id == n;
        var j :| 0 <= j < |f.result.executed| && f.result.executed[j] == e;
        ExecutedId(db, g, f, j);
      }
      assert Insertable(g, f.result.timerEvents);
      NotInsertable(g, f.result.timerEvents, n);
    }
  }

  lemma NotInsertable(g: Ledger, events: seq<Event>, n: Name)
    requires Insertable(g, events) && n in g.owner
    ensures n !in IdsOf(events)
  {
  }

  lemma RecordedOwned(db: Db, after: Db, g: Ledger, f: Report, at: Time, stickyTimeout: int)
    requires Owned(db, g) && Timely(db, g, f) && RecordedBy(db, after, f, at, stickyTimeout)
    ensures Owned(after, Charged(g, f))
  {
    hide Honest, Held, Collect, Fresh, Charged, Timely;
    ChargedOwner(db, g, f);
    ActivitiesExecuted(db, g, f);
    forall row | row in after.pending
      ensures row.event.id in Charged(g, f).owner && Charged(g, f).owner[row.event.id] == row.key
    {
      if row in RowsFor(f.Key(), f.result.timerEvents) {
        assert row.event.id in IdsOf(f.result.timerEvents);
      }
    }
  }

  lemma ActivitiesExecuted(db: Db, g: Ledger, f: Report)
    requires Timely(db, g, f)
    ensures forall e :: e in f.result.activityEvents ==> e.id in IdsOf(f.result.executed)
  {
    hide Honest, Held, Collect, Fresh, Started;
    ActivitiesMean(db, g, f);
    forall e | e in f.result.activityEvents
      ensures e.id in IdsOf(f.result.executed)
    {
      var i :| 0 <= i < |f.Decisions().events| && f.Decisions().events[i] == e;
      DecidedIndex(db, g, f, i);
      assert f.result.executed[f.count + i] in f.result.executed;
    }
  }

  // ---------- uniqueness ----------

  lemma RecordedOnce(db: Db, after: Db, g: Ledger, f: Report, at: Time, stickyTimeout: int)
    requires Owned(db, g) && Once(db) && Timely(db, g, f) && RecordedBy(db, after, f, at, stickyTimeout)
    ensures Once(after)
  {
    hide Honest, Held, Collect, Fresh, Timely, DistinctIds, IsCanceled, InTable;
    TimersMean(db, g, f);
    PendingUnique(db, after, g, f);
    HistoryUnique(db, g, f);
    forall row, e | row in after.pending && e in after.HistoryOf(row.key)
      ensures e.id != row.event.id
    {
      RowNotRecorded(db, g, f, row, e);
    }
  }

  lemma PendingUnique(db: Db, after: Db, g: Ledger, f: Report)
    requires Owned(db, g) && Once(db) && Insertable(g, f.result.timerEvents)
    requires forall row :: row in after.pending ==> row in db.pending || row in RowsFor(f.Key(), f.result.timerEvents)
    ensures forall r, s :: r in after.pending && s in after.pending && r.event.id == s.event.id ==> r == s
  {
  }

  lemma HistoryUnique(db: Db, g: Ledger, f: Report)
    requires Owned(db, g) && Once(db) && Timely(db, g, f)
    ensures DistinctIds(db.HistoryOf(f.Key()) + f.result.executed)
  {
    hide Honest, Held, Collect, Fresh, Timely;
    var h, x := db.HistoryOf(f.Key()), f.result.executed;
    ExecutedDistinct(db, g, f);
    forall i, j | 0 <= i < |h| && 0 <= j < |x|
      ensures h[i].id != x[j].id
    {
      assert h[i] in h;
      ExecutedId(db, g, f, j);
      ExecutedAt(db, g, f, j);
    }
    DistinctSplit(h, x);
  }

  lemma RowNotRecorded(db: Db, g: Ledger, f: Report, row: PendingRow, e: Event)
    requires Owned(db, g) && Once(db) && Timely(db, g, f)
    requires Remains(row, db, f) || row in RowsFor(f.Key(), f.result.timerEvents)
    requires e in db.HistoryOf(row.key) || (row.key == f.Key() && e in f.result.executed)
    ensures e.id != row.event.id
  {
    hide Honest, Held, Collect, Timely, IsCanceled, Insertable, Fresh, DistinctIds;
    TimersMean(db, g, f);
    if row in RowsFor(f.Key(), f.result.timerEvents) {
      assert row.event in f.result.timerEvents;
      if e.id in g.owner {
        NotInsertable(g, f.result.timerEvents, e.id);
        assert row.event.id in IdsOf(f.result.timerEvents);
      } else if e in f.result.executed {
        var j :| 0 <= j < |f.result.executed| && f.result.executed[j] == e;
        ExecutedId(db, g, f, j);
      }
    }
  }

  // ---------- deliveries, numbering, finality ----------

  lemma RecordedDeliveries(db: Db, after: Db, g: Ledger, f: Report, at: Time, stickyTimeout: int)
    requires Deliveries(db) && Timely(db, g, f) && RecordedBy(db, after, f, at, stickyTimeout)
    ensures Deliveries(after)
  {
    hide Timely, IsCanceled, IsExecuted, Deliverable;
    TimersMean(db, g, f);
  }

  lemma RecordedSequenced(db: Db, after: Db, g: Ledger, f: Report, at: Time, stickyTimeout: int)
    requires Sequenced(db) && Timely(db, g, f) && RecordedBy(db, after, f, at, stickyTimeout)
    ensures Sequenced(after)
  {
    hide Timely, IsCanceled, IsExecuted, Collect;
    var h, x := db.HistoryOf(f.Key()), f.result.executed;
    forall j | 0 <= j < |x|
      ensures x[j].sequenceID == |h| + j + 1
    {
      ExecutedAt(db, g, f, j);
    }
    assert NumberedFrom(h + x, 0);
  }

  lemma RecordedOneActive(db: Db, after: Db, g: Ledger, f: Report, at: Time, stickyTimeout: int)
    requires OneActive(db) && Timely(db, g, f) && RecordedBy(db, after, f, at, stickyTimeout)
    ensures OneActive(after)
  {
    hide Honest, IsCanceled, IsExecuted, Collect, InTable;
  }

  /** The last executed event, and only it, is terminal if the execution ends. */
  lemma ExecutedTerminal(db: Db, g: Ledger, f: Report)
    requires Deliveries(db) && Timely(db, g, f)
    ensures TerminalOnlyLast(f.result.executed)
    ensures f.result.state != Active <==> HasTerminal(f.result.executed)
    ensures f.result.state != Active <==> EndsWith(f.commands)
    ensures f.result.state == InstanceState.ContinuedAsNew <==>
            EndsWith(f.commands) && f.commands[|f.commands| - 1].action.ContinueAsNew?
  {
    hide Honest, Held, Decided, EndsWith, Collect, Fresh;
    HonestIsDecided(db, g, f);
    FinalIsLast(f.commands, db.HistoryOf(f.Key()), f.task.instance, f.source, f.now);
    var x := f.result.executed;
    forall j | 0 <= j < |x|
      ensures IsTerminal(x[j].attributes) ==> f.result.state != Active && j == |x| - 1
    {
      ExecutedAt(db, g, f, j);
      if j >= f.count {
        DecidedIndex(db, g, f, |f.Decisions().events| - 1);
        ExecutedAt(db, g, f, |x| - 1);
      }
    }
    if f.result.state != Active {
      var last := |f.Decisions().events| - 1;
      DecidedIndex(db, g, f, last);
      assert x[f.count + last] in x;
    }
    EndIsFinal(f.commands);
  }

  lemma EndIsFinal(cs: seq<Command>)
    ensures EndsWith(cs) ==> cs != [] && (cs[|cs| - 1].action.Complete? <==> !cs[|cs| - 1].action.ContinueAsNew?)
  {
  }

  lemma RecordedFinality(db: Db, after: Db, g: Ledger, f: Report, at: Time, stickyTimeout: int)
    requires Finality(db) && Deliveries(db) && Timely(db, g, f) && RecordedBy(db, after, f, at, stickyTimeout)
    ensures Finality(after)
  {
    hide Honest, IsCanceled, IsExecuted, Collect, InTable, Deliveries, Fresh;
    var h, x := db.HistoryOf(f.Key()), f.result.executed;
    ExecutedTerminal(db, g, f);
    assert !HasTerminal(h);
    assert HasTerminal(h + x) <==> HasTerminal(x);
    assert TerminalOnlyLast(h + x);
  }

  // ---------- executions and accounts ----------

  lemma RecordedKnown(db: Db, after: Db, g: Ledger, f: Report, at: Time, stickyTimeout: int)
    requires Known(db, g) && Finality(db) && Deliveries(db) && Timely(db, g, f) &&
             RecordedBy(db, after, f, at, stickyTimeout)
    ensures Known(after, Charged(g, f))
  {
    hide Honest, IsCanceled, IsExecuted, Collect, InTable, Deliveries, Fresh, Held, Finality, SubInstances;
    HeldKey(db, g, f);
    forall s | s in SubInstances(db.HistoryOf(f.Key()) + f.result.executed)
      ensures s.1.executionID in Charged(g, f).executions
    {
      SubInstanceFrom(db, g, f, s);
    }
  }

  lemma SubInstanceFrom(db: Db, g: Ledger, f: Report, s: (int, Instance))
    requires Timely(db, g, f) && Deliveries(db) && Known(db, g)
    requires s in SubInstances(db.HistoryOf(f.Key()) + f.result.executed)
    ensures s.1.executionID in g.executions + NewExecutions(f.Decisions().events)
  {
    hide Honest, Collect, Fresh;
    var h, x := db.HistoryOf(f.Key()), f.result.executed;
    var e: Event :| e in h + x && e.attributes.SubWorkflowScheduled? && (e.scheduleEventID, e.attributes.instance) == s;
    if e in h {
      assert s in SubInstances(h);
    } else {
      var j :| 0 <= j < |x| && x[j] == e;
      ExecutedAt(db, g, f, j);
      assert f.Decisions().events[j - f.count] in f.Decisions().events;
    }
  }

  lemma RecordedAccounted(db: Db, after: Db, g: Ledger, f: Report, at: Time, stickyTimeout: int)
    requires Structure(db, g) && Timely(db, g, f) && RecordedBy(db, after, f, at, stickyTimeout)
    ensures Accounted(after, Charged(g, f))
  {
    hide Honest, Collect, Fresh, Owned, Sequenced, OneActive, Finality, Known, InTable, Ids, Among, Held, Timely, Once;
    assert after.pending <= g.accepted + RowsFor(f.Key(), f.result.timerEvents);
    forall row | row in g.accepted && row.key !in g.removed
      ensures row in after.pending || Among(row.event, after.HistoryOf(row.key)) ||
              (row.event.attributes.TimerFired? && row.event.scheduleEventID in Ids(after.HistoryOf(row.key), TimerStop))
    {
      RowAccounted(db, after, g, f, row, at, stickyTimeout);
    }
  }

  lemma RowAccounted(db: Db, after: Db, g: Ledger, f: Report, row: PendingRow, at: Time, stickyTimeout: int)
    requires Structure(db, g) && Timely(db, g, f) && RecordedBy(db, after, f, at, stickyTimeout)
    requires row in g.accepted && row.key !in g.removed
    ensures row in after.pending || Among(row.event, after.HistoryOf(row.key)) ||
            (row.event.attributes.TimerFired? && row.event.scheduleEventID in Ids(after.HistoryOf(row.key), TimerStop))
  {
    hide Honest, Collect, Fresh, Owned, Sequenced, OneActive, Finality, Known, InTable, Ids, Among, Held, Timely, Once;
    var h, x := db.HistoryOf(f.Key()), f.result.executed;
    IdsSum(h, x, TimerStop);
    AmongGrows(row.event, h, x);
    if row in db.pending && row !in after.pending {
      if IsExecuted(row, f) {
        ExecutedRow(db, g, f, row);
      } else {
        var e :| e in x && e.attributes.TimerCanceled? && Future(row, f.Key(), e.scheduleEventID);
        IdsHas(x, e, TimerStop);
      }
    }
  }

  lemma AmongGrows(e: Event, h: seq<Event>, x: seq<Event>)
    ensures Among(e, h) || Among(e, x) ==> Among(e, h + x)
  {
    if Among(e, h) {
      var o :| o in h && o == e.(sequenceID := o.sequenceID);
      assert o in h + x;
    }
    if Among(e, x) {
      var o :| o in x && o == e.(sequenceID := o.sequenceID);
      assert o in h + x;
    }
  }

  /** A pending row with the id of an executed event is that event. */
  lemma ExecutedRow(db: Db, g: Ledger, f: Report, row: PendingRow)
    requires Owned(db, g) && Once(db) && Timely(db, g, f) && row in db.pending && IsExecuted(row, f)
    ensures exists j {:trigger f.result.executed[j]} ::
              0 < j < f.count && j < |f.result.executed| && j - 1 < |f.task.newEvents| &&
              row.event == f.task.newEvents[j - 1] &&
              f.result.executed[j] == row.event.(sequenceID := |db.HistoryOf(f.Key())| + j + 1)
    ensures Among(row.event, f.result.executed)
  {
    hide Honest, Collect, Fresh, Timely;
    var e :| e in f.result.executed && e.id == row.event.id;
    var j :| 0 <= j < |f.result.executed| && f.result.executed[j] == e;
    ExecutedAt(db, g, f, j);
    ExecutedId(db, g, f, j);
    assert PendingRow(f.Key(), f.task.newEvents[j - 1]) == row;
    assert f.result.executed[j] in f.result.executed;
  }

  lemma RecordedStructure(db: Db, after: Db, g: Ledger, f: Report, at: Time, stickyTimeout: int)
    requires Structure(db, g) && Timely(db, g, f) && RecordedBy(db, after, f, at, stickyTimeout)
    ensures Structure(after, Charged(g, f))
  {
    hide Owned, Once, Deliveries, Sequenced, OneActive, Finality, Known, Accounted, Timely, RecordedBy, Charged;
    RecordedOwned(db, after, g, f, at, stickyTimeout);
    RecordedOnce(db, after, g, f, at, stickyTimeout);
    RecordedDeliveries(db, after, g, f, at, stickyTimeout);
    RecordedSequenced(db, after, g, f, at, stickyTimeout);
    RecordedOneActive(db, after, g, f, at, stickyTimeout);
    RecordedFinality(db, after, g, f, at, stickyTimeout);
    RecordedKnown(db, after, g, f, at, stickyTimeout);
    RecordedAccounted(db, after, g, f, at, stickyTimeout);
  }
}
