/** Where pending and recorded outcomes come from: timers fire when they are due, sub-workflows report what they finished with. */
module Provenance {
  import opened Basics
  import opened History
  import opened Commands
  import opened Histories
  import opened Contract
  import opened Decisions
  import opened Database
  import opened Ledgers
  import opened Recording
  import opened Settlement
  import opened Delivery
  import opened Tables
  import opened Protocol
  import opened Guarantees

  // ---------- timers ----------

  /** The history has the event that started this timer, due at the same time. */
  predicate DueIn(h: seq<Event>, e: Event) {
    exists s :: s in h && DueAsStarted(s, e)
  }

  /** No schedule id is started twice. */
  predicate StartsOnce(h: seq<Event>) {
    forall e, f :: e in h && f in h && IsScheduled(e.attributes) && IsScheduled(f.attributes) ==>
      e.scheduleEventID == f.scheduleEventID ==> e == f
  }

  predicate TimersDue(s: System) {
    && (forall row :: row in s.db.pending && row.event.attributes.TimerFired? && row.key !in s.ledger.removed ==>
          DueIn(s.db.HistoryOf(row.key), row.event))
    && (forall k :: k in s.db.history ==> StartsOnce(s.db.history[k]))
    && (forall k, e :: k in s.db.history && e in s.db.history[k] && e.attributes.TimerFired? ==> DueIn(s.db.history[k], e))
  }

  // ---------- sub-workflows ----------

  /** In this state of the tables, a child started by this event of its parent has ended as the outcome `a` says. */
  predicate EndedAs(db: Db, child: Key, key: Key, id: int, a: Attributes) {
    && child in db.instances && db.instances[child].parent == Some(Link(key, id))
    && db.instances[child].state == Finished && db.HistoryOf(child) != []
    && match db.HistoryOf(child)[|db.HistoryOf(child)| - 1].attributes
       case ExecutionFinished(result, error) =>
         if error.Some? then a == SubWorkflowFailed(error.value) else a == SubWorkflowCompleted(result)
       case _ => false
  }

  /** An outcome of a sub-workflow is what one of its executions ended with, in one of the states so far, or a refusal. */
  ghost predicate Explained(past: seq<System>, key: Key, id: int, a: Attributes) {
    KindOf(a) == Some(SubWorkflowEnd) ==>
      a == SubWorkflowFailed(Error.InstanceAlreadyExists) ||
      exists i, child :: 0 <= i < |past| && EndedAs(past[i].db, child, key, id, a)
  }

  ghost predicate AllExplained(past: seq<System>, db: Db) {
    && (forall row :: row in db.pending ==> Explained(past, row.key, row.event.scheduleEventID, row.event.attributes))
    && (forall k, e :: k in db.history && e in db.history[k] ==> Explained(past, k, e.scheduleEventID, e.attributes))
  }

  // ---------- steps that bring no outcome ----------

  predicate Neutral(a: Attributes) {
    !a.TimerFired? && KindOf(a) != Some(SubWorkflowEnd)
  }

  predicate NeutralStep(s: System, s': System) {
    && (forall row :: row in s'.db.pending ==> row in s.db.pending || Neutral(row.event.attributes))
    && (forall k :: k in s'.db.history ==> k in s.db.history && s'.db.history[k] == s.db.history[k])
    && (forall k :: k in s.db.history && k !in s'.db.history ==> k in s'.ledger.removed)
    && s.ledger.removed <= s'.ledger.removed
  }

  lemma CreateNeutral(s: System, c: Call)
    requires c.Create? && Permitted(s, c)
    ensures NeutralStep(s, After(s, c))
  {
    hide PendingConflict, HasActive;
  }

  lemma RequestNeutral(s: System, c: Call)
    requires (c.Signal? || c.Cancel?) && Permitted(s, c)
    ensures NeutralStep(s, After(s, c))
  {
    hide PendingConflict, HasActive;
  }

  lemma ResultNeutral(s: System, c: Call)
    requires c.FinishActivity? && Permitted(s, c)
    ensures NeutralStep(s, After(s, c))
  {
    hide PendingConflict, HasActive;
  }

  lemma OtherNeutral(s: System, c: Call)
    requires !(c.Create? || c.Signal? || c.Cancel? || c.FinishActivity? || c.Finish?) && Permitted(s, c)
    ensures NeutralStep(s, After(s, c))
  {
    hide Enumerates, VisibleRows;
  }

  lemma NeutralKeepsTimers(s: System, s': System)
    requires TimersDue(s) && NeutralStep(s, s')
    ensures TimersDue(s')
  {
    hide DueIn, StartsOnce;
    forall row | row in s'.db.pending && row.event.attributes.TimerFired? && row.key !in s'.ledger.removed
      ensures DueIn(s'.db.HistoryOf(row.key), row.event)
    {
      assert s'.db.HistoryOf(row.key) == s.db.HistoryOf(row.key);
    }
  }

  lemma NeutralKeepsExplained(past: seq<System>, s: System, s': System)
    requires AllExplained(past, s.db) && NeutralStep(s, s')
    ensures AllExplained(past, s'.db)
  {
    hide EndedAs;
  }

  lemma MorePast(past: seq<System>, next: System, db: Db)
    requires AllExplained(past, db)
    ensures AllExplained(past + [next], db)
  {
    hide EndedAs;
    forall key, id, a | Explained(past, key, id, a)
      ensures Explained(past + [next], key, id, a)
    {
      ExplainedLater(past, next, key, id, a);
    }
  }

  lemma ExplainedLater(past: seq<System>, next: System, key: Key, id: int, a: Attributes)
    requires Explained(past, key, id, a)
    ensures Explained(past + [next], key, id, a)
  {
    hide EndedAs;
    if KindOf(a) == Some(SubWorkflowEnd) && a != SubWorkflowFailed(Error.InstanceAlreadyExists) {
      var i, child :| 0 <= i < |past| && EndedAs(past[i].db, child, key, id, a);
      assert EndedAs((past + [next])[i].db, child, key, id, a);
    }
  }

  // ---------- completing a task ----------

  /** The pending rows after a completion: old ones, timers started, messages and refusals. */
  lemma CompletedRows(db: Db, w: Worker, f: Report, settings: Settings, at: Time, order: seq<Instance>)
    requires forall e :: e in f.result.activityEvents ==> e.attributes.ActivityScheduled?
    requires IsOrder(order, f.result.workflowEvents)
    requires CompleteWorkflowTask(db, w, f.task, f.result, settings, at, f.source, order).Commit?
    ensures
      var db' := CompleteWorkflowTask(db, w, f.task, f.result, settings, at, f.source, order).db;
      forall row :: row in db'.pending ==>
        row in db.pending || (row.key == f.Key() && row.event in f.result.timerEvents) ||
        (exists m :: m in f.result.workflowEvents && row == PendingRow(KeyOf(m.instance), m.event)) ||
        row.event.attributes == SubWorkflowFailed(Error.InstanceAlreadyExists)
  {
    hide CompleteWorkflowTask, TaskRecorded, OnlyAdds, Reached;
    CompleteMeans(db, w, f.task, f.result, settings, at, f.source, order);
    var db' := CompleteWorkflowTask(db, w, f.task, f.result, settings, at, f.source, order).db;
    var recorded, delivered :|
      && TaskRecorded(db, f.task, f.result, at, settings.stickyTimeout, recorded)
      && Told(recorded, f.task.instance, f.task.queue, f.result.workflowEvents, delivered)
      && Finally(delivered, f.task.instance,
                 settings.removeContinuedAsNew && f.result.state == InstanceState.ContinuedAsNew, db');
    forall row | row in db'.pending
      ensures row in db.pending || (row.key == f.Key() && row.event in f.result.timerEvents) ||
              (exists m :: m in f.result.workflowEvents && row == PendingRow(KeyOf(m.instance), m.event)) ||
              row.event.attributes == SubWorkflowFailed(Error.InstanceAlreadyExists)
    {
      RowFrom(db, f, at, settings.stickyTimeout, recorded, delivered, row);
    }
  }

  lemma RowFrom(db: Db, f: Report, at: Time, stickyTimeout: int, recorded: Db, delivered: Db, row: PendingRow)
    requires TaskRecorded(db, f.task, f.result, at, stickyTimeout, recorded)
    requires OnlyAdds(recorded, f.task.instance, f.result.workflowEvents, delivered) && row in delivered.pending
    ensures row in db.pending || (row.key == f.Key() && row.event in f.result.timerEvents) ||
            (exists m :: m in f.result.workflowEvents && row == PendingRow(KeyOf(m.instance), m.event)) ||
            row.event.attributes == SubWorkflowFailed(Error.InstanceAlreadyExists)
  {
    hide Released, Offered, Processed, Obsolete, LinkedAs, Newborn, IsStart;
    if row !in recorded.pending {
      assert Carried(f.task.instance, f.result.workflowEvents, row);
    }
  }

  /** The message that reports the end of a sub-workflow says what the task recorded last. */
  lemma EndingMessage(db: Db, g: Ledger, f: Report, w: WorkflowEvent)
    requires Timely(db, g, f) && w in f.result.workflowEvents && KindOf(w.event.attributes) == Some(SubWorkflowEnd)
    ensures f.result.state == Finished && f.result.executed != []
    ensures f.task.instance.parent == Some(w.instance) && w.event.scheduleEventID == f.task.instance.parentEventID
    ensures
      match f.result.executed[|f.result.executed| - 1].attributes
      case ExecutionFinished(result, error) =>
        w.event.attributes == if error.Some? then SubWorkflowFailed(error.value) else SubWorkflowCompleted(result)
      case _ => false
  {
    hide Honest, Held, Fresh, Collect, SoundCommand, Decided, Command.Execute;
    var cs, h := f.commands, db.HistoryOf(f.Key());
    HonestIsDecided(db, g, f);
    MessageMeans(cs, h, f.task.instance, f.source, f.now, w);
    FinalIsLast(cs, h, f.task.instance, f.source, f.now);
    CollectYields(cs, f.now, f.source);
    CollectComplete(cs, f.now, f.source, |cs| - 1);
    CollectOrdered(cs, f.now, f.source);
    var es := f.Decisions().events;
    LastOwn(cs, f.now, f.source, es);
    DecidedIndex(db, g, f, |es| - 1);
    SizeExecuted(db, g, f);
    EndTells(cs[|cs| - 1], es[|es| - 1], w, f.now, f.source);
  }

  lemma SizeExecuted(db: Db, g: Ledger, f: Report)
    requires Timely(db, g, f)
    ensures |f.result.executed| == f.count + |f.Decisions().events|
  {
    hide Decided, EndsWith, Collect;
  }

  /** The last event of a checkpoint belongs to its last command, if that had something to do. */
  lemma LastOwn(cs: seq<Command>, now: Time, source: nat, es: seq<Event>)
    requires Numbered(cs) && cs != [] && es == Collect(cs, now, source).events && es != []
    requires forall e :: e in es ==> Working(cs, e.id, source, ForEvent) && Records(cs[At(cs, e.id)], e, now, source)
    requires exists e :: e in es && Records(cs[|cs| - 1], e, now, source)
    requires forall i, j :: 0 <= i < j < |es| ==> At(cs, es[i].id) < At(cs, es[j].id)
    ensures Records(cs[|cs| - 1], es[|es| - 1], now, source)
  {
    hide Collect;
    var e :| e in es && Records(cs[|cs| - 1], e, now, source);
    RecordsOwn(cs[|cs| - 1], e, now, source);
    var j :| 0 <= j < |es| && es[j] == e;
    assert es[|es| - 1] in es;
    assert At(cs, e.id) == |cs| - 1;
  }

  lemma RecordsOwn(c: Command, e: Event, now: Time, source: nat)
    requires Records(c, e, now, source)
    ensures e.id == Drawn(source, ForEvent, c.id)
  {
  }

  lemma EndTells(c: Command, e: Event, w: WorkflowEvent, now: Time, source: nat)
    requires Records(c, e, now, source) && Tells(c, w, now, source) &&
             KindOf(w.event.attributes) == Some(SubWorkflowEnd)
    ensures c.action.Complete?
    ensures e.attributes == ExecutionFinished(c.action.result, c.action.error)
    ensures w.event.attributes ==
            if c.action.error.Some? then SubWorkflowFailed(c.action.error.value) else SubWorkflowCompleted(c.action.result)
  {
  }

  // ---------- timers after a completion ----------

  lemma ExecutedStarts(db: Db, g: Ledger, f: Report, e: Event)
    requires Timely(db, g, f) && Deliveries(db) && e in f.result.executed && IsScheduled(e.attributes)
    ensures e.scheduleEventID !in Started(db.HistoryOf(f.Key()))
    ensures e.id.Drawn? && e.id == Drawn(f.source, ForEvent, e.id.number) && e.scheduleEventID == e.id.number
  {
    hide Honest, Held, Fresh, Collect, Started, SubInstances, Decided, Ids;
    HonestIsDecided(db, g, f);
    var j :| 0 <= j < |f.result.executed| && f.result.executed[j] == e;
    ExecutedAt(db, g, f, j);
    DecisionMeans(f.commands, db.HistoryOf(f.Key()), f.task.instance, f.source, f.now, f.Decisions().events[j - f.count]);
  }

  lemma StartsStayOnce(db: Db, g: Ledger, f: Report)
    requires Timely(db, g, f) && Structure(db, g) && StartsOnce(db.HistoryOf(f.Key()))
    ensures StartsOnce(db.HistoryOf(f.Key()) + f.result.executed)
  {
    hide Timely, Once, Sequenced, OneActive, Finality, Known, Accounted, Ids, Deliveries, Owned;
    var h := db.HistoryOf(f.Key());
    ExecutedDistinct(db, g, f);
    forall e, o | e in h + f.result.executed && o in h + f.result.executed && IsScheduled(e.attributes) &&
                  IsScheduled(o.attributes) && e.scheduleEventID == o.scheduleEventID
      ensures e == o
    {
      if e in f.result.executed { ExecutedStarts(db, g, f, e); }
      if o in f.result.executed { ExecutedStarts(db, g, f, o); }
      if e in h { StartedIn(h, e); }
      if o in h { StartedIn(h, o); }
    }
  }

  lemma StartedIn(h: seq<Event>, e: Event)
    requires e in h && IsScheduled(e.attributes)
    ensures e.scheduleEventID in Started(h)
  {
  }

  lemma DueLater(h: seq<Event>, more: seq<Event>, e: Event)
    requires DueIn(h, e)
    ensures DueIn(h + more, e) && forall n :: DueIn(h + more, e.(sequenceID := n))
  {
    var s :| s in h && DueAsStarted(s, e);
    assert s in h + more;
    forall n
      ensures DueIn(h + more, e.(sequenceID := n))
    {
      assert DueAsStarted(s, e.(sequenceID := n));
    }
  }

  /** A timer started by the task is due in the longer history. */
  lemma NewTimerDue(db: Db, g: Ledger, f: Report, e: Event)
    requires Timely(db, g, f) && e in f.result.timerEvents
    ensures DueIn(db.HistoryOf(f.Key()) + f.result.executed, e)
  {
    hide Honest, Held, Fresh, Collect;
    TimersMean(db, g, f);
    var s :| s in f.Decisions().events && s.attributes.TimerScheduled? && s.scheduleEventID == e.scheduleEventID &&
             DueAsStarted(s, e);
    var i :| 0 <= i < |f.Decisions().events| && f.Decisions().events[i] == s;
    DecidedIndex(db, g, f, i);
    var o := f.result.executed[f.count + i];
    assert o in db.HistoryOf(f.Key()) + f.result.executed && DueAsStarted(o, e);
  }

  lemma MessageNeutral(db: Db, g: Ledger, f: Report, m: WorkflowEvent)
    requires Timely(db, g, f) && m in f.result.workflowEvents
    ensures !m.event.attributes.TimerFired?
  {
    hide Honest, Held, Fresh, Collect, Decided;
    HonestIsDecided(db, g, f);
    MessageMeans(f.commands, db.HistoryOf(f.Key()), f.task.instance, f.source, f.now, m);
  }

  /** A result among the executed events was pending. */
  lemma ExecutedOutcome(db: Db, g: Ledger, f: Report, e: Event) returns (was: Event)
    requires Timely(db, g, f) && Deliveries(db) && e in f.result.executed
    requires e.attributes.TimerFired? || KindOf(e.attributes) == Some(SubWorkflowEnd)
    ensures PendingRow(f.Key(), was) in db.pending && e == was.(sequenceID := e.sequenceID)
  {
    hide Honest, Held, Fresh, Collect, Decided;
    var j :| 0 <= j < |f.result.executed| && f.result.executed[j] == e;
    ExecutedAt(db, g, f, j);
    if j >= f.count {
      NoOutcomeDecided(db, g, f, j - f.count);
    }
    was := f.task.newEvents[j - 1];
  }

  // ---------- a completion keeps both ----------

  /** What a committed completion leaves, as far as outcomes are concerned. */
  ghost predicate Completes(s: System, c: Call, s': System) {
    && c.Finish? && Sane(s) && Timely(s.db, s.ledger, c.report) && s.ledger.removed <= s'.ledger.removed
    && (forall row :: row in s'.db.pending ==>
          row in s.db.pending || (row.key == c.report.Key() && row.event in c.report.result.timerEvents) ||
          (exists m :: m in c.report.result.workflowEvents && row == PendingRow(KeyOf(m.instance), m.event)) ||
          row.event.attributes == SubWorkflowFailed(Error.InstanceAlreadyExists))
    && (forall k :: k != c.report.Key() ==> s'.db.HistoryOf(k) == s.db.HistoryOf(k))
    && if c.report.Key() in s'.db.instances then
         && s'.db.HistoryOf(c.report.Key()) == s.db.HistoryOf(c.report.Key()) + c.report.result.executed
         && s'.db.instances[c.report.Key()].state == c.report.result.state
         && s'.db.instances[c.report.Key()].parent == LinkOf(c.report.task.instance)
       else
         && c.report.Key() in s'.ledger.removed && c.report.result.state == InstanceState.ContinuedAsNew
         && s'.db.HistoryOf(c.report.Key()) == []
  }

  lemma FinishCompletes(s: System, c: Call)
    requires Sane(s) && c.Finish? && Permitted(s, c)
    ensures if TaskTx(s, c).Commit? then Completes(s, c, After(s, c))
            else After(s, c).db == s.db && After(s, c).ledger == s.ledger
  {
    hide Inv, Honest, Fresh, ClaimHolds, DrawsFrom, Completed, IsOrder, Timely, CompleteWorkflowTask;
    assert ClaimHolds(s.db, c.worker, c.key, s.claims[(c.worker, c.key)]);
    ClaimKey(s.db, c.worker, c.key, s.claims[(c.worker, c.key)]);
    Fencing(s, c);
    if TaskTx(s, c).Commit? {
      ReportTimely(s, c);
      CompleteKeeps(s.db, s.ledger, c.worker, c.report, c.settings, c.at, c.order);
      CompletedRows(s.db, c.worker, c.report, c.settings, c.at, c.order);
      HeldKey(s.db, s.ledger, c.report);
      StepSane(s, c);
      AbsentHasNoHistory(After(s, c).db, After(s, c).ledger);
      forall k | k != c.key
        ensures After(s, c).db.HistoryOf(k) == s.db.HistoryOf(k)
      {
        assert Elsewhere(s.db, After(s, c).db, k);
      }
    }
  }

  lemma CompletionTimers(s: System, c: Call, s': System)
    requires Completes(s, c, s') && TimersDue(s)
    ensures TimersDue(s')
  {
    hide Inv, Timely, DueIn, StartsOnce, ClaimsHold;
    var f, key := c.report, c.report.Key();
    var h := s.db.HistoryOf(key);
    SaneParts(s);
    assert StartsOnce(h) by { NothingStarts(); }
    StartsStayOnce(s.db, s.ledger, f);
    forall row | row in s'.db.pending && row.event.attributes.TimerFired? && row.key !in s'.ledger.removed
      ensures DueIn(s'.db.HistoryOf(row.key), row.event)
    {
      if row in s.db.pending {
        DueLater(s.db.HistoryOf(row.key), f.result.executed, row.event);
      } else if m :| m in f.result.workflowEvents && row == PendingRow(KeyOf(m.instance), m.event) {
        MessageNeutral(s.db, s.ledger, f, m);
      } else {
        NewTimerDue(s.db, s.ledger, f, row.event);
      }
    }
    forall k | k in s'.db.history
      ensures StartsOnce(s'.db.history[k])
      ensures forall e :: e in s'.db.history[k] && e.attributes.TimerFired? ==> DueIn(s'.db.history[k], e)
    {
      assert s'.db.HistoryOf(k) == s'.db.history[k];
      if k == key && key in s'.db.instances {
        RecordedDue(s, c, s');
      } else if s'.db.history[k] == [] {
        NothingStarts();
      } else {
        assert s.db.HistoryOf(k) == s'.db.history[k] && k in s.db.history;
      }
    }
  }

  lemma NothingStarts()
    ensures StartsOnce([])
  {
  }

  lemma SaneParts(s: System)
    requires Sane(s)
    ensures Structure(s.db, s.ledger) && Deliveries(s.db)
    ensures forall k :: k in s.db.instances ==> k !in s.ledger.removed
  {
    hide Owned, Once, Deliveries, Sequenced, OneActive, Finality, Accounted, ActivitiesSettle, TimersSettle,
         SubWorkflowsSettle, ClaimsHold;
  }

  /** Firings that the task recorded were pending, and due. */
  lemma RecordedDue(s: System, c: Call, s': System)
    requires Completes(s, c, s') && TimersDue(s) && c.report.Key() in s'.db.instances
    ensures
      var all := s'.db.HistoryOf(c.report.Key());
      forall e :: e in all && e.attributes.TimerFired? ==> DueIn(all, e)
  {
    hide Inv, Timely, DueIn, StartsOnce, ClaimsHold;
    var f, key := c.report, c.report.Key();
    var h := s.db.HistoryOf(key);
    SaneParts(s);
    HeldKey(s.db, s.ledger, f);
    forall e | e in h + f.result.executed && e.attributes.TimerFired?
      ensures DueIn(h + f.result.executed, e)
    {
      if e in h {
        DueLater(h, f.result.executed, e);
      } else {
        var was := ExecutedOutcome(s.db, s.ledger, f, e);
        assert DueIn(h, was);
        DueLater(h, f.result.executed, was);
      }
    }
  }

  lemma CompletionExplained(past: seq<System>, s: System, c: Call, s': System)
    requires Completes(s, c, s') && AllExplained(past, s.db)
    ensures AllExplained(past + [s'], s'.db)
  {
    hide Completes, Explained, EndedAs;
    forall row | row in s'.db.pending
      ensures Explained(past + [s'], row.key, row.event.scheduleEventID, row.event.attributes)
    {
      RowExplained(past, s, c, s', row);
    }
    forall k, e | k in s'.db.history && e in s'.db.history[k]
      ensures Explained(past + [s'], k, e.scheduleEventID, e.attributes)
    {
      RecordedExplained(past, s, c, s', k, e);
    }
  }

  lemma RowExplained(past: seq<System>, s: System, c: Call, s': System, row: PendingRow)
    requires Completes(s, c, s') && AllExplained(past, s.db) && row in s'.db.pending
    ensures Explained(past + [s'], row.key, row.event.scheduleEventID, row.event.attributes)
  {
    hide Sane, Timely, Explained, EndedAs;
    var f, key := c.report, c.report.Key();
    if row in s.db.pending {
      ExplainedLater(past, s', row.key, row.event.scheduleEventID, row.event.attributes);
    } else if row.key == key && row.event in f.result.timerEvents {
      TimersMean(s.db, s.ledger, f);
      NotAnOutcome(past + [s'], row.key, row.event.scheduleEventID, row.event.attributes);
    } else if m :| m in f.result.workflowEvents && row == PendingRow(KeyOf(m.instance), m.event) {
      MessageExplained(past, s, c, s', m);
    } else {
      NotAnOutcome(past + [s'], row.key, row.event.scheduleEventID, row.event.attributes);
    }
  }

  lemma RecordedExplained(past: seq<System>, s: System, c: Call, s': System, k: Key, e: Event)
    requires Completes(s, c, s') && AllExplained(past, s.db) && k in s'.db.history && e in s'.db.history[k]
    ensures Explained(past + [s'], k, e.scheduleEventID, e.attributes)
  {
    hide Inv, ClaimsHold, Timely, Explained, EndedAs;
    var f, key := c.report, c.report.Key();
    SaneParts(s);
    assert s'.db.HistoryOf(k) == s'.db.history[k];
    if k in s.db.history && e in s.db.history[k] {
      ExplainedLater(past, s', k, e.scheduleEventID, e.attributes);
    } else if KindOf(e.attributes) == Some(SubWorkflowEnd) {
      assert k == key && e in f.result.executed;
      var was := ExecutedOutcome(s.db, s.ledger, f, e);
      ExplainedLater(past, s', k, e.scheduleEventID, e.attributes);
    } else {
      NotAnOutcome(past + [s'], k, e.scheduleEventID, e.attributes);
    }
  }

  lemma NotAnOutcome(past: seq<System>, key: Key, id: int, a: Attributes)
    requires KindOf(a) != Some(SubWorkflowEnd) || a == SubWorkflowFailed(Error.InstanceAlreadyExists)
    ensures Explained(past, key, id, a)
  {
  }

  /** A message that reports an end comes from the execution that just ended. */
  lemma MessageExplained(past: seq<System>, s: System, c: Call, s': System, m: WorkflowEvent)
    requires Completes(s, c, s') && m in c.report.result.workflowEvents
    ensures Explained(past + [s'], KeyOf(m.instance), m.event.scheduleEventID, m.event.attributes)
  {
    hide Sane, Timely;
    var f := c.report;
    if KindOf(m.event.attributes) == Some(SubWorkflowEnd) {
      EndingMessage(s.db, s.ledger, f, m);
      var h, all := s'.db.HistoryOf(f.Key()), past + [s'];
      assert h[|h| - 1] == f.result.executed[|f.result.executed| - 1];
      assert EndedAs(all[|past|].db, f.Key(), KeyOf(m.instance), m.event.scheduleEventID, m.event.attributes);
    }
  }

  // ---------- runs ----------

  lemma StepTimers(s: System, c: Call)
    requires Sane(s) && Permitted(s, c) && TimersDue(s)
    ensures TimersDue(After(s, c))
  {
    hide Sane, Permitted, After, TimersDue, TaskTx;
    if c.Finish? {
      FinishCompletes(s, c);
      if TaskTx(s, c).Commit? {
        CompletionTimers(s, c, After(s, c));
      } else {
        SameTimers(s, After(s, c));
      }
    } else {
      NotFinishing(s, c);
      NeutralKeepsTimers(s, After(s, c));
    }
  }

  lemma SameTimers(s: System, s': System)
    requires TimersDue(s) && s'.db == s.db && s'.ledger == s.ledger
    ensures TimersDue(s')
  {
  }

  lemma NotFinishing(s: System, c: Call)
    requires !c.Finish? && Permitted(s, c)
    ensures NeutralStep(s, After(s, c))
  {
    hide Permitted, After;
    if c.Create? {
      CreateNeutral(s, c);
    } else if c.Signal? || c.Cancel? {
      RequestNeutral(s, c);
    } else if c.FinishActivity? {
      ResultNeutral(s, c);
    } else {
      OtherNeutral(s, c);
    }
  }

  lemma StepExplained(past: seq<System>, s: System, c: Call)
    requires Sane(s) && Permitted(s, c) && AllExplained(past, s.db)
    ensures AllExplained(past + [After(s, c)], After(s, c).db)
  {
    hide Sane, Permitted, After, AllExplained, TaskTx;
    if c.Finish? {
      FinishCompletes(s, c);
      if TaskTx(s, c).Commit? {
        CompletionExplained(past, s, c, After(s, c));
      } else {
        MorePast(past, After(s, c), s.db);
      }
    } else {
      NotFinishing(s, c);
      NeutralKeepsExplained(past, s, After(s, c));
      MorePast(past, After(s, c), After(s, c).db);
    }
  }

  /** The states a run goes through. */
  function StatesOf(s: System, calls: seq<Call>): (states: seq<System>)
    requires AllowedRun(s, calls)
    ensures |states| == |calls| + 1
    decreases |calls|
  {
    if calls == [] then [s] else [s] + StatesOf(After(s, calls[0]), calls[1..])
  }

  lemma {:induction false} RunExplained(past: seq<System>, s: System, calls: seq<Call>)
    requires Sane(s) && AllowedRun(s, calls) && TimersDue(s) && AllExplained(past + [s], s.db)
    ensures TimersDue(Guarantees.Run(s, calls))
    ensures AllExplained(past + StatesOf(s, calls), Guarantees.Run(s, calls).db)
    decreases |calls|
  {
    hide Sane, After, Permitted, TimersDue, AllExplained;
    if calls != [] {
      var next := After(s, calls[0]);
      StepSane(s, calls[0]);
      StepTimers(s, calls[0]);
      StepExplained(past + [s], s, calls[0]);
      RunExplained(past + [s], next, calls[1..]);
      assert past + [s] + StatesOf(next, calls[1..]) == past + StatesOf(s, calls);
    }
  }

  lemma NothingPending()
    ensures TimersDue(Empty) && forall past :: AllExplained(past, Empty.db)
  {
  }

  /**
    In every reachable database a pending firing is visible exactly when the recorded event that started the timer says,
    and so was every firing that was recorded.
   */
  lemma TimersFireWhenDue(s: System, row: PendingRow, e: Event)
    requires Reachable(s) && row in s.db.pending && row.event.attributes.TimerFired? && row.key !in s.ledger.removed
    requires e in s.db.HistoryOf(row.key) && e.attributes.TimerScheduled? &&
             e.scheduleEventID == row.event.scheduleEventID
    ensures row.event.visibleAt == Some(e.attributes.at) && row.event.attributes.at == e.attributes.at
    ensures row.event.attributes.name == e.attributes.name
  {
    hide Reachable, DueAsStarted;
    ReachableTimers(s);
    var h := s.db.HistoryOf(row.key);
    var o :| o in h && DueAsStarted(o, row.event);
    DueMeans(o, row.event);
  }

  lemma DueMeans(s: Event, e: Event)
    requires DueAsStarted(s, e)
    ensures s.attributes.TimerScheduled? && e.attributes.TimerFired? && s.scheduleEventID == e.scheduleEventID
    ensures e.visibleAt == Some(s.attributes.at) && e.attributes.at == s.attributes.at &&
            e.attributes.name == s.attributes.name
  {
  }

  /** Every pending firing has such an event, and every recorded one. */
  lemma EveryFiringStarted(s: System, key: Key, e: Event)
    requires Reachable(s) && key !in s.ledger.removed && e.attributes.TimerFired?
    requires PendingRow(key, e) in s.db.pending || e in s.db.HistoryOf(key)
    ensures exists o :: o in s.db.HistoryOf(key) && o.attributes.TimerScheduled? && o.scheduleEventID == e.scheduleEventID &&
                        e.visibleAt == Some(o.attributes.at) && e.attributes.at == o.attributes.at
  {
    hide Reachable, DueAsStarted;
    ReachableTimers(s);
    var o :| o in s.db.HistoryOf(key) && DueAsStarted(o, e);
    DueMeans(o, e);
  }

  lemma ReachableTimers(s: System)
    requires Reachable(s)
    ensures TimersDue(s)
  {
    hide TimersDue, Guarantees.Run, AllowedRun, Sane, AllExplained;
    var calls :| AllowedRun(Empty, calls) && Guarantees.Run(Empty, calls) == s;
    EmptyIsSane();
    NothingPending();
    RunExplained([], Empty, calls);
  }

  /**
    Where a sub-workflow is pending or recorded as completed with a result, an execution of exactly that parent and event
    has finished with exactly that result and no error, at some time in the run.
   */
  lemma CompletedMeansFinished(calls: seq<Call>, key: Key, e: Event) returns (n: nat, child: Key)
    requires AllowedRun(Empty, calls) && e.attributes.SubWorkflowCompleted?
    requires PendingRow(key, e) in Guarantees.Run(Empty, calls).db.pending || e in Guarantees.Run(Empty, calls).db.HistoryOf(key)
    ensures n <= |calls|
    ensures
      var db := StatesOf(Empty, calls)[n].db;
      && child in db.instances && db.instances[child].parent == Some(Link(key, e.scheduleEventID))
      && db.instances[child].state == Finished && db.HistoryOf(child) != []
      && db.HistoryOf(child)[|db.HistoryOf(child)| - 1].attributes == ExecutionFinished(e.attributes.result, None)
  {
    hide TimersDue, Guarantees.Run, AllowedRun, Sane, StatesOf;
    n, child := OutcomeFrom(calls, key, e);
  }

  /** And where it is pending or recorded as failed: with exactly that error, or its instance existed already. */
  lemma FailedMeansFailed(calls: seq<Call>, key: Key, e: Event) returns (n: nat, child: Key)
    requires AllowedRun(Empty, calls) && e.attributes.SubWorkflowFailed?
    requires e.attributes.reason != Error.InstanceAlreadyExists
    requires PendingRow(key, e) in Guarantees.Run(Empty, calls).db.pending || e in Guarantees.Run(Empty, calls).db.HistoryOf(key)
    ensures n <= |calls|
    ensures
      var db := StatesOf(Empty, calls)[n].db;
      && child in db.instances && db.instances[child].parent == Some(Link(key, e.scheduleEventID))
      && db.instances[child].state == Finished && db.HistoryOf(child) != []
      && var last := db.HistoryOf(child)[|db.HistoryOf(child)| - 1].attributes;
      && last.ExecutionFinished? && last.error == Some(e.attributes.reason)
  {
    hide TimersDue, Guarantees.Run, AllowedRun, Sane, StatesOf;
    n, child := OutcomeFrom(calls, key, e);
  }

  lemma OutcomeFrom(calls: seq<Call>, key: Key, e: Event) returns (n: nat, child: Key)
    requires AllowedRun(Empty, calls) && KindOf(e.attributes) == Some(SubWorkflowEnd)
    requires e.attributes != SubWorkflowFailed(Error.InstanceAlreadyExists)
    requires PendingRow(key, e) in Guarantees.Run(Empty, calls).db.pending || e in Guarantees.Run(Empty, calls).db.HistoryOf(key)
    ensures n <= |calls| && EndedAs(StatesOf(Empty, calls)[n].db, child, key, e.scheduleEventID, e.attributes)
  {
    hide TimersDue, Guarantees.Run, AllowedRun, Sane, StatesOf, EndedAs;
    EmptyIsSane();
    NothingPending();
    RunExplained([], Empty, calls);
    assert [] + StatesOf(Empty, calls) == StatesOf(Empty, calls);
    assert Explained(StatesOf(Empty, calls), key, e.scheduleEventID, e.attributes);
    n, child :|
      n < |StatesOf(Empty, calls)| && EndedAs(StatesOf(Empty, calls)[n].db, child, key, e.scheduleEventID, e.attributes);
  }

  // ---------- a sub-workflow whose instance exists already ----------

  lemma StillRuns(db: Db, f: Report, at: Time, stickyTimeout: int, recorded: Db, k: Key)
    requires TaskRecorded(db, f.task, f.result, at, stickyTimeout, recorded)
    requires k in db.instances && db.instances[k].state == Active && (k != f.Key() || f.result.state == Active)
    ensures Runs(recorded, k.instanceID)
  {
    hide Offered, Processed, Obsolete;
    assert k in recorded.instances.Keys;
    assert recorded.instances[k].state == Active;
  }

  /** The message that starts an execution is alone in its group. */
  lemma StartFirst(self: Instance, source: nat, ws: seq<WorkflowEvent>, m: WorkflowEvent)
    requires Addressed(self, source, ws) && m in ws && Starts(m)
    ensures GroupOf(ws, m.instance) != [] && GroupOf(ws, m.instance)[0] == m
  {
    hide Message, Debt, Continuation;
    GroupMember(ws, m.instance);
    assert m in GroupOf(ws, m.instance);
    assert GroupOf(ws, m.instance)[0] in GroupOf(ws, m.instance);
    assert Apart(self, m, GroupOf(ws, m.instance)[0]);
  }

  /** A task that starts a sub-workflow does not continue its execution as new. */
  lemma StartsAndGoesOn(db: Db, g: Ledger, f: Report, m: WorkflowEvent)
    requires Timely(db, g, f) && m in f.result.workflowEvents && Starts(m) && m.instance.parent == Some(f.task.instance)
    ensures f.result.state != InstanceState.ContinuedAsNew
  {
    hide Honest, Held, Fresh, Collect, SoundCommand, Decided;
    var cs, h := f.commands, db.HistoryOf(f.Key());
    HonestIsDecided(db, g, f);
    MessageMeans(cs, h, f.task.instance, f.source, f.now, m);
    FinalIsLast(cs, h, f.task.instance, f.source, f.now);
    if f.result.state == InstanceState.ContinuedAsNew {
      SoundIsNotFinal(cs, h, f.task.instance, f.source);
      EndIsContinuation(cs, h, f.task.instance, f.source, f.now);
      ContinuationIsOnlyStart(cs, h, f.task.instance, f.source, f.now, m);
      NotItsOwnParent(f.task.instance);
    }
  }

  lemma EndIsContinuation(cs: seq<Command>, h: seq<Event>, instance: Instance, source: nat, now: Time)
    requires Decided(cs, h, instance, source) && Collect(cs, now, source).state == InstanceState.ContinuedAsNew
    ensures EndsWith(cs) && cs[|cs| - 1].action.ContinueAsNew?
  {
    hide SoundCommand, Collect, Decided;
    SoundIsNotFinal(cs, h, instance, source);
    FinalIsLast(cs, h, instance, source, now);
  }

  lemma NotItsOwnParent(i: Instance)
    ensures i.parent != Some(i)
  {
    assert i.parent.Some? ==> i.parent.value < i;
  }

  /**
    A task starts a sub-workflow of an instance of which an execution is active: after the completion its execution
    has, for that schedule id, one pending event and nothing else, and it says that the sub-workflow failed.
   */
  lemma ExistingInstanceFails(db: Db, g: Ledger, w: Worker, f: Report, settings: Settings, at: Time,
                              order: seq<Instance>, m: WorkflowEvent, k: Key)
    returns (db': Db, row: PendingRow)
    requires Inv(db, g, {}) && Timely(db, g, f) && IsOrder(order, f.result.workflowEvents)
    requires f.Key() in db.instances && db.instances[f.Key()].worker == Some(w)
    requires m in f.result.workflowEvents && m.event.attributes.ExecutionStarted?
    requires m.instance.parent == Some(f.task.instance)
    requires k in db.instances && k.instanceID == m.instance.instanceID && db.instances[k].state == Active
    requires k != f.Key() || f.result.state == Active
    ensures forall e :: e in f.result.activityEvents ==> e.attributes.ActivityScheduled?
    ensures CompleteWorkflowTask(db, w, f.task, f.result, settings, at, f.source, order) == Commit(db')
    ensures row in db'.pending && row.key == f.Key() && row.event.scheduleEventID == m.instance.parentEventID
    ensures row.event.attributes == SubWorkflowFailed(Error.InstanceAlreadyExists)
    ensures forall t :: Holds(db', f.Key(), m.instance.parentEventID, SubWorkflowEnd, t) ==> t == Waiting(row)
  {
    hide Inv, Timely, TaskRecorded, Record, DeliverGroups, IsOrder, Addressed, Completed, OnlyAdds, Elsewhere,
         DrawsFrom,
         MayRemove, Runs, Holds;
    CompleteKeeps(db, g, w, f, settings, at, order);
    db' := CompleteWorkflowTask(db, w, f.task, f.result, settings, at, f.source, order).db;
    StartsAndGoesOn(db, g, f, m);
    RecordMeans(db, f.task, f.result, at, settings.stickyTimeout);
    var recorded := Record(db, f.task, f.result, at, settings.stickyTimeout).db;
    StillRuns(db, f, at, settings.stickyTimeout, recorded, k);
    HonestIsAddressed(db, g, f);
    StartFirst(f.task.instance, f.source, f.result.workflowEvents, m);
    OrderHasGroups(order, f.result.workflowEvents);
    var j := PlaceOf(order, f.result.workflowEvents, m);
    var before := StartDelivered(recorded, f.task.instance, f.task.queue, order, f.result.workflowEvents, at, f.source, 0, j);
    RunsOn(recorded, f.task.instance, f.result.workflowEvents, before, m.instance.instanceID);
    row :| row in db'.pending && Refuses(f.task.instance, m.instance, row);
    OnlyOutcome(db', Completed(db, g, f, settings, at, order), row);
  }

  lemma PlaceOf(order: seq<Instance>, ws: seq<WorkflowEvent>, m: WorkflowEvent) returns (j: nat)
    requires IsOrder(order, ws) && m in ws
    ensures j < |order| && order[j] == m.instance
  {
    j :| 0 <= j < |order| && order[j] == m.instance;
  }

  /** A pending outcome is the only token of its sub-workflow. */
  lemma OnlyOutcome(db: Db, g: Ledger, row: PendingRow)
    requires Inv(db, g, {}) && row in db.pending && KindOf(row.event.attributes) == Some(SubWorkflowEnd)
    requires row.key in db.instances
    ensures forall t :: Holds(db, row.key, row.event.scheduleEventID, SubWorkflowEnd, t) ==> t == Waiting(row)
  {
    hide Owned, Once, Deliveries, Sequenced, OneActive, Finality, Accounted, ActivitiesSettle, TimersSettle, Ids;
    assert Holds(db, row.key, row.event.scheduleEventID, SubWorkflowEnd, Waiting(row));
    assert !NoToken(db, row.key, row.event.scheduleEventID, SubWorkflowEnd);
  }
}
