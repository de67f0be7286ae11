/**
  Once a task is recorded, every activity and timer still has its one outcome to come, and the
  sub-workflow outcomes still to be delivered are exactly those its messages carry.
 */
module Settlement {
  import opened Basics
  import opened History
  import opened Commands
  import opened Execution
  import opened Histories
  import opened Contract
  import opened Decisions
  import opened Database
  import opened Ledgers
  import opened Recording
  import opened Bookkeeping

  predicate Outcomes(kind: Kind) {
    kind == ActivityEnd || kind == TimerFire || kind == SubWorkflowEnd
  }

  /** Where a token was before the task was recorded: a newly kept result was pending. */
  function Origin(db: Db, f: Report, k: Key, u: Token): Token {
    if k == f.Key() && u.Kept? && u.index >= |db.HistoryOf(k)| then
      var j := u.index - |db.HistoryOf(k)|;
      if 0 < j < f.count && j - 1 < |f.task.newEvents| then Waiting(PendingRow(k, f.task.newEvents[j - 1])) else u
    else u
  }

  /** The task itself put the token there. */
  predicate NewToken(f: Report, k: Key, id: int, kind: Kind, u: Token) {
    k == f.Key() &&
    match u
    case Job(n) => kind == ActivityEnd && exists e :: e in f.result.activityEvents && e.id == n && e.scheduleEventID == id
    case Waiting(row) =>
      kind == TimerFire && row in RowsFor(f.Key(), f.result.timerEvents) && row.event.scheduleEventID == id
    case _ => false
  }

  /** The task takes the token away: its execution ends, or it cancels the timer. */
  predicate Lost(f: Report, t: Token) {
    (t == Child(f.Key()) && f.result.state != Active) ||
    (t.Waiting? && !IsExecuted(t.row, f) && IsCanceled(t.row, f))
  }

  ghost predicate Step(db: Db, after: Db, g: Ledger, f: Report, at: Time, stickyTimeout: int) {
    Structure(db, g) && Timely(db, g, f) && RecordedBy(db, after, f, at, stickyTimeout)
  }

  lemma Backward(db: Db, after: Db, g: Ledger, f: Report, at: Time, stickyTimeout: int, k: Key, id: int, kind: Kind,
                 u: Token)
    requires Step(db, after, g, f, at, stickyTimeout) && Outcomes(kind) && Holds(after, k, id, kind, u)
    ensures Holds(db, k, id, kind, Origin(db, f, k, u)) || NewToken(f, k, id, kind, u)
  {
    hide Structure, Honest, Held, Fresh, Collect, IsExecuted, IsCanceled;
    TimersMean(db, g, f);
    match u
    case Job(n) =>
      if n !in db.activities {
        assert n in IdsOf(f.result.activityEvents);
      }
    case Child(c) => HeldKey(db, g, f);
    case Waiting(row) =>
    case Kept(i) =>
      var h := db.HistoryOf(f.Key());
      if k == f.Key() && i >= |h| {
        assert after.HistoryOf(k)[i] == f.result.executed[i - |h|];
        ExecutedAt(db, g, f, i - |h|);
        if i - |h| >= f.count {
          NoOutcomeDecided(db, g, f, i - |h| - f.count);
        }
      }
  }

  lemma NoOutcomeDecided(db: Db, g: Ledger, f: Report, i: nat)
    requires Timely(db, g, f) && i < |f.Decisions().events|
    ensures
      var a := f.Decisions().events[i].attributes;
      KindOf(a).Some? ==> !Outcomes(KindOf(a).value)
  {
    hide Honest, Held, Fresh, Collect, Ids, Started, SubInstances;
    HonestIsDecided(db, g, f);
    DecisionMeans(f.commands, db.HistoryOf(f.Key()), f.task.instance, f.source, f.now, f.Decisions().events[i]);
  }

  lemma Forward(db: Db, after: Db, g: Ledger, f: Report, at: Time, stickyTimeout: int, k: Key, id: int, kind: Kind,
                t: Token)
    returns (u: Token)
    requires Step(db, after, g, f, at, stickyTimeout) && Holds(db, k, id, kind, t) && !Lost(f, t)
    ensures Holds(after, k, id, kind, u) && Origin(db, f, k, u) == t
  {
    hide Structure, IsCanceled, Timely, IsExecuted, Step, Holds, Lost, Origin;
    if t.Waiting? && IsExecuted(t.row, f) {
      u := ForwardExecuted(db, after, g, f, at, stickyTimeout, k, id, kind, t);
    } else {
      u := t;
      ForwardSame(db, after, g, f, at, stickyTimeout, k, id, kind, t);
    }
  }

  lemma ForwardExecuted(db: Db, after: Db, g: Ledger, f: Report, at: Time, stickyTimeout: int, k: Key, id: int,
                        kind: Kind, t: Token)
    returns (u: Token)
    requires Step(db, after, g, f, at, stickyTimeout) && Holds(db, k, id, kind, t) && t.Waiting? && IsExecuted(t.row, f)
    ensures Holds(after, k, id, kind, u) && Origin(db, f, k, u) == t
  {
    hide Owned, Once, Step, Timely, IsExecuted;
    StepRecords(db, after, g, f, at, stickyTimeout);
    assert t.row.key == f.Key() by { ExecutedHere(t.row, f); }
    ExecutedRow(db, g, f, t.row);
    var j :| 0 < j < f.count && j < |f.result.executed| && j - 1 < |f.task.newEvents| &&
             t.row.event == f.task.newEvents[j - 1] &&
             f.result.executed[j] == t.row.event.(sequenceID := |db.HistoryOf(f.Key())| + j + 1);
    u := Kept(|db.HistoryOf(k)| + j);
    assert after.HistoryOf(k)[|db.HistoryOf(k)| + j] == f.result.executed[j];
  }

  lemma ExecutedHere(row: PendingRow, f: Report)
    requires IsExecuted(row, f)
    ensures row.key == f.Key()
  {
  }

  lemma StepRecords(db: Db, after: Db, g: Ledger, f: Report, at: Time, stickyTimeout: int)
    requires Step(db, after, g, f, at, stickyTimeout)
    ensures Owned(db, g) && Once(db) && Timely(db, g, f)
    ensures after.HistoryOf(f.Key()) == db.HistoryOf(f.Key()) + f.result.executed
  {
    hide Owned, Once, Deliveries, Sequenced, OneActive, Finality, Known, Accounted, IsCanceled, Timely, InTable;
  }

  lemma ForwardSame(db: Db, after: Db, g: Ledger, f: Report, at: Time, stickyTimeout: int, k: Key, id: int,
                    kind: Kind, t: Token)
    requires Step(db, after, g, f, at, stickyTimeout) && Holds(db, k, id, kind, t) && !Lost(f, t)
    requires !(t.Waiting? && IsExecuted(t.row, f))
    ensures Holds(after, k, id, kind, t) && Origin(db, f, k, t) == t
  {
    hide Structure, IsCanceled, Timely, IsExecuted;
    StepMeans(db, after, g, f, at, stickyTimeout);
    HeldKey(db, g, f);
  }

  /** No two tokens have the same origin. */
  lemma OneOrigin(db: Db, after: Db, g: Ledger, f: Report, at: Time, stickyTimeout: int, k: Key, id: int, kind: Kind,
                  u: Token, v: Token)
    requires Step(db, after, g, f, at, stickyTimeout) && Outcomes(kind)
    requires Holds(after, k, id, kind, u) && Holds(after, k, id, kind, v)
    requires !NewToken(f, k, id, kind, u) && !NewToken(f, k, id, kind, v)
    requires Origin(db, f, k, u) == Origin(db, f, k, v)
    ensures u == v
  {
    hide Honest, Fresh, Collect, Owned, Once, Deliveries, Sequenced, OneActive, Finality, Known, Accounted, IsCanceled;
    OriginMoves(db, after, g, f, at, stickyTimeout, k, id, kind, u);
    OriginMoves(db, after, g, f, at, stickyTimeout, k, id, kind, v);
  }

  /** A token that moved was an executed pending row, one that did not was not. */
  lemma OriginMoves(db: Db, after: Db, g: Ledger, f: Report, at: Time, stickyTimeout: int, k: Key, id: int,
                    kind: Kind, u: Token)
    requires Step(db, after, g, f, at, stickyTimeout) && Outcomes(kind)
    requires Holds(after, k, id, kind, u) && !NewToken(f, k, id, kind, u)
    ensures u.Waiting? ==> !IsExecuted(u.row, f) && !IsCanceled(u.row, f) && Origin(db, f, k, u) == u
    ensures Origin(db, f, k, u) != u ==> u.Kept? && Origin(db, f, k, u).Waiting? && IsExecuted(Origin(db, f, k, u).row, f)
  {
    hide Honest, Fresh, Collect, Owned, Once, Deliveries, Sequenced, OneActive, Finality, Known, Accounted, IsCanceled;
    TimersMean(db, g, f);
    if Origin(db, f, k, u) != u {
      var j := u.index - |db.HistoryOf(k)|;
      ReceivedIndex(db, g, f, j);
      assert f.result.executed[j] in f.result.executed;
    }
  }

  /** Where the task neither adds nor takes a token, the count stays. */
  lemma SamePlace(db: Db, after: Db, g: Ledger, f: Report, at: Time, stickyTimeout: int, k: Key, id: int, kind: Kind)
    requires Step(db, after, g, f, at, stickyTimeout) && Outcomes(kind)
    requires forall u :: !NewToken(f, k, id, kind, u)
    ensures NoToken(db, k, id, kind) ==> NoToken(after, k, id, kind)
    ensures ExactlyOne(db, k, id, kind) && (forall t :: Holds(db, k, id, kind, t) ==> !Lost(f, t)) ==>
              ExactlyOne(after, k, id, kind)
    ensures ExactlyOne(db, k, id, kind) && (exists t :: Holds(db, k, id, kind, t) && Lost(f, t)) ==> NoToken(after, k, id, kind)
  {
    hide Step, Holds, Lost, Origin, NewToken;
    forall u | Holds(after, k, id, kind, u)
      ensures Holds(db, k, id, kind, Origin(db, f, k, u)) && !Lost(f, Origin(db, f, k, u))
    {
      Backward(db, after, g, f, at, stickyTimeout, k, id, kind, u);
      NotLost(db, after, g, f, at, stickyTimeout, k, id, kind, u);
    }
    if ExactlyOne(db, k, id, kind) {
      var t :| Holds(db, k, id, kind, t) && forall u :: Holds(db, k, id, kind, u) ==> u == t;
      if !Lost(f, t) {
        var v := Forward(db, after, g, f, at, stickyTimeout, k, id, kind, t);
        forall u | Holds(after, k, id, kind, u)
          ensures u == v
        {
          assert Origin(db, f, k, u) == t;
          OneOrigin(db, after, g, f, at, stickyTimeout, k, id, kind, u, v);
        }
      }
    }
  }

  lemma NotLost(db: Db, after: Db, g: Ledger, f: Report, at: Time, stickyTimeout: int, k: Key, id: int, kind: Kind,
                u: Token)
    requires Step(db, after, g, f, at, stickyTimeout) && Outcomes(kind)
    requires Holds(after, k, id, kind, u) && !NewToken(f, k, id, kind, u)
    ensures !Lost(f, Origin(db, f, k, u))
  {
    hide Honest, Fresh, Collect, Structure, IsCanceled, IsExecuted, Timely, NewToken;
    OriginMoves(db, after, g, f, at, stickyTimeout, k, id, kind, u);
  }

  /** Where the task puts one token and there was none. */
  lemma NewPlace(db: Db, after: Db, g: Ledger, f: Report, at: Time, stickyTimeout: int, k: Key, id: int, kind: Kind,
                 new_: Token)
    requires Step(db, after, g, f, at, stickyTimeout) && Outcomes(kind)
    requires NoToken(db, k, id, kind) && Holds(after, k, id, kind, new_)
    requires forall u :: NewToken(f, k, id, kind, u) ==> u == new_
    ensures ExactlyOne(after, k, id, kind)
  {
    hide Step, Holds, Origin, NewToken;
    forall u | Holds(after, k, id, kind, u)
      ensures u == new_
    {
      Backward(db, after, g, f, at, stickyTimeout, k, id, kind, u);
    }
  }

  // ---------- the ids a task adds ----------

  /** A start or stop among the executed events is a decision of the task. */
  lemma StartDecided(db: Db, g: Ledger, f: Report, id: int, k: Kind) returns (e: Event)
    requires Timely(db, g, f) && Deliveries(db) && id in Ids(f.result.executed, k) && !Outcomes(k)
    ensures e in f.Decisions().events && KindOf(e.attributes) == Some(k) && e.scheduleEventID == id
    ensures !IsTerminal(e.attributes)
    ensures k.ActivityStart? || k.TimerStart? || k.SubWorkflowStart? ==> id !in Started(db.HistoryOf(f.Key()))
  {
    hide Honest, Held, Fresh, Collect, Started, SubInstances;
    var o: Event :| o in f.result.executed && KindOf(o.attributes) == Some(k) && o.scheduleEventID == id;
    var j :| 0 <= j < |f.result.executed| && f.result.executed[j] == o;
    ExecutedAt(db, g, f, j);
    e := f.Decisions().events[j - f.count];
    HonestIsDecided(db, g, f);
    DecisionMeans(f.commands, db.HistoryOf(f.Key()), f.task.instance, f.source, f.now, e);
  }

  lemma DecidedInIds(db: Db, g: Ledger, f: Report, e: Event, k: Kind)
    requires Timely(db, g, f) && e in f.Decisions().events && KindOf(e.attributes) == Some(k)
    ensures e.scheduleEventID in Ids(f.result.executed, k)
  {
    hide Honest, Held, Fresh, Collect;
    var i :| 0 <= i < |f.Decisions().events| && f.Decisions().events[i] == e;
    DecidedIndex(db, g, f, i);
    assert f.result.executed[f.count + i] in f.result.executed;
  }

  // ---------- activities ----------

  lemma ActivityPlace(db: Db, after: Db, g: Ledger, f: Report, at: Time, stickyTimeout: int, id: int)
    requires Step(db, after, g, f, at, stickyTimeout) && id in Ids(f.result.executed, ActivityStart)
    requires NoToken(db, f.Key(), id, ActivityEnd)
    ensures ExactlyOne(after, f.Key(), id, ActivityEnd)
  {
    hide Owned, Once, Sequenced, OneActive, Finality, Known, Accounted, Held, Fresh, Honest, Collect, Ids,
         SubInstances, Started;
    var e := StartDecided(db, g, f, id, ActivityStart);
    ActivitiesMean(db, g, f);
    HonestIsDecided(db, g, f);
    ActivitiesAmongEvents(f.commands, f.now, f.source);
    forall u | NewToken(f, f.Key(), id, ActivityEnd, u)
      ensures u == Job(e.id)
    {
      var o :| o in f.result.activityEvents && o.id == u.id && o.scheduleEventID == id;
      DecisionMeans(f.commands, db.HistoryOf(f.Key()), f.task.instance, f.source, f.now, o);
      DecisionMeans(f.commands, db.HistoryOf(f.Key()), f.task.instance, f.source, f.now, e);
    }
    assert Holds(after, f.Key(), id, ActivityEnd, Job(e.id));
    NewPlace(db, after, g, f, at, stickyTimeout, f.Key(), id, ActivityEnd, Job(e.id));
  }

  lemma NoNewActivity(db: Db, g: Ledger, f: Report, k: Key, id: int)
    requires Timely(db, g, f) && (k != f.Key() || id !in Ids(f.result.executed, ActivityStart))
    ensures forall u :: !NewToken(f, k, id, ActivityEnd, u)
  {
    hide Honest, Held, Fresh, Collect, Ids, Started;
    ActivitiesMean(db, g, f);
    forall u
      ensures !NewToken(f, k, id, ActivityEnd, u)
    {
      if NewToken(f, k, id, ActivityEnd, u) {
        var e :| e in f.result.activityEvents && e.id == u.id && e.scheduleEventID == id;
        DecidedInIds(db, g, f, e, ActivityStart);
      }
    }
  }

  lemma NotLostElsewhere(db: Db, f: Report, k: Key, id: int, kind: Kind, t: Token)
    requires Deliveries(db) && Holds(db, k, id, kind, t) && Lost(f, t)
    ensures t == Child(f.Key()) || (k == f.Key() && kind == TimerFire && id in Ids(f.result.executed, TimerStop))
  {
    if t.Waiting? {
      var e :| e in f.result.executed && e.attributes.TimerCanceled? && Future(t.row, f.Key(), e.scheduleEventID);
    }
  }

  lemma RecordedActivities(db: Db, after: Db, g: Ledger, f: Report, at: Time, stickyTimeout: int)
    requires Step(db, after, g, f, at, stickyTimeout) && ActivitiesSettle(db, g)
    ensures ActivitiesSettle(after, Charged(g, f))
  {
    hide Step, Ids, Holds, Lost, Structure;
    assert Structure(db, g) && Timely(db, g, f) by { StepMeans(db, after, g, f, at, stickyTimeout); }
    forall key, id | key !in g.removed
      ensures if id in Ids(after.HistoryOf(key), ActivityStart) then ExactlyOne(after, key, id, ActivityEnd)
              else NoToken(after, key, id, ActivityEnd)
    {
      RecordedHistory(db, after, g, f, at, stickyTimeout, key, ActivityStart);
      if key == f.Key() && id in Ids(f.result.executed, ActivityStart) {
        FreshPlace(db, g, f, id, ActivityStart);
        ActivityPlace(db, after, g, f, at, stickyTimeout, id);
      } else {
        NoNewActivity(db, g, f, key, id);
        forall t | Holds(db, key, id, ActivityEnd, t)
          ensures !Lost(f, t)
        {
          if Lost(f, t) {
            StepDeliveries(db, after, g, f, at, stickyTimeout);
            NotLostElsewhere(db, f, key, id, ActivityEnd, t);
            ChildIsSubWorkflow(db, key, id, ActivityEnd, t);
          }
        }
        SamePlace(db, after, g, f, at, stickyTimeout, key, id, ActivityEnd);
      }
    }
  }

  lemma StepMeans(db: Db, after: Db, g: Ledger, f: Report, at: Time, stickyTimeout: int)
    requires Step(db, after, g, f, at, stickyTimeout)
    ensures Structure(db, g) && Timely(db, g, f)
  {
  }

  lemma StepDeliveries(db: Db, after: Db, g: Ledger, f: Report, at: Time, stickyTimeout: int)
    requires Step(db, after, g, f, at, stickyTimeout)
    ensures Deliveries(db)
  {
    hide Timely;
  }

  lemma ChildIsSubWorkflow(db: Db, k: Key, id: int, kind: Kind, t: Token)
    requires Holds(db, k, id, kind, t) && t.Child?
    ensures kind == SubWorkflowEnd
  {
  }

  /** The ids of a history after the task. */
  lemma RecordedHistory(db: Db, after: Db, g: Ledger, f: Report, at: Time, stickyTimeout: int, k: Key, kind: Kind)
    requires Step(db, after, g, f, at, stickyTimeout)
    ensures Ids(after.HistoryOf(k), kind) ==
            Ids(db.HistoryOf(k), kind) + if k == f.Key() then Ids(f.result.executed, kind) else {}
    ensures k in after.history <==> k in db.history || k == f.Key()
  {
    hide Structure, Timely, Ids;
    IdsSum(db.HistoryOf(f.Key()), f.result.executed, kind);
  }

  /** What is newly started was not started before. */
  lemma FreshPlace(db: Db, g: Ledger, f: Report, id: int, k: Kind)
    requires Timely(db, g, f) && Structure(db, g) && id in Ids(f.result.executed, k)
    requires k.ActivityStart? || k.TimerStart? || k.SubWorkflowStart?
    ensures id !in Ids(db.HistoryOf(f.Key()), k)
    ensures f.Key() !in g.removed
  {
    hide Ids, Timely, Owned, Once, Sequenced, OneActive, Finality, Accounted;
    HeldKey(db, g, f);
    var e := StartDecided(db, g, f, id, k);
  }

  // ---------- timers ----------

  lemma TimerPlace(db: Db, after: Db, g: Ledger, f: Report, at: Time, stickyTimeout: int, id: int)
    requires Step(db, after, g, f, at, stickyTimeout) && id in Ids(f.result.executed, TimerStart)
    requires NoToken(db, f.Key(), id, TimerFire)
    ensures ExactlyOne(after, f.Key(), id, TimerFire)
  {
    hide Owned, Once, Sequenced, OneActive, Finality, Known, Accounted, Held, Fresh, Honest, Collect, Ids,
         SubInstances, Started;
    var s := StartDecided(db, g, f, id, TimerStart);
    HonestIsDecided(db, g, f);
    var e := TimerHasEvent(f.commands, db.HistoryOf(f.Key()), f.task.instance, f.source, f.now, s);
    TimersMean(db, g, f);
    var row := PendingRow(f.Key(), e);
    assert row in RowsFor(f.Key(), f.result.timerEvents);
    forall u | NewToken(f, f.Key(), id, TimerFire, u)
      ensures u == Waiting(row)
    {
      SameTimer(f.result.timerEvents, u.row.event, e);
    }
    assert Holds(after, f.Key(), id, TimerFire, Waiting(row));
    NewPlace(db, after, g, f, at, stickyTimeout, f.Key(), id, TimerFire, Waiting(row));
  }

  lemma SameTimer(events: seq<Event>, a: Event, b: Event)
    requires DistinctIds(events) && a in events && b in events && a.id == b.id
    ensures a == b
  {
  }

  lemma NoNewTimer(db: Db, g: Ledger, f: Report, k: Key, id: int)
    requires Timely(db, g, f) && (k != f.Key() || id !in Ids(f.result.executed, TimerStart))
    ensures forall u :: !NewToken(f, k, id, TimerFire, u)
  {
    hide Honest, Held, Fresh, Collect, Ids, Started;
    TimersMean(db, g, f);
    forall u
      ensures !NewToken(f, k, id, TimerFire, u)
    {
      if NewToken(f, k, id, TimerFire, u) {
        var s :| s in f.Decisions().events && s.attributes.TimerScheduled? && s.scheduleEventID == u.row.event.scheduleEventID;
        DecidedInIds(db, g, f, s, TimerStart);
      }
    }
  }

  lemma StoppedBefore(db: Db, g: Ledger, f: Report)
    requires Timely(db, g, f) && Structure(db, g)
    ensures Ids(f.result.executed, TimerStop) <= Ids(db.HistoryOf(f.Key()), TimerStart)
  {
    hide Timely, Once, Sequenced, OneActive, Finality, Known, Accounted;
    forall id | id in Ids(f.result.executed, TimerStop)
      ensures id in Ids(db.HistoryOf(f.Key()), TimerStart)
    {
      var e: Event :| e in f.result.executed && KindOf(e.attributes) == Some(TimerStop) && e.scheduleEventID == id;
      CanceledMeans(db, g, f, e);
    }
  }

  lemma TimerCounts(db: Db, after: Db, g: Ledger, f: Report, at: Time, stickyTimeout: int, key: Key, id: int)
    requires Step(db, after, g, f, at, stickyTimeout) && TimersSettle(db, g) && key !in g.removed
    ensures
      if id !in Ids(after.HistoryOf(key), TimerStart) then NoToken(after, key, id, TimerFire)
      else if id !in Ids(after.HistoryOf(key), TimerStop) then ExactlyOne(after, key, id, TimerFire)
      else NoToken(after, key, id, TimerFire) || ExactlyOne(after, key, id, TimerFire)
  {
    hide Step, Ids, Holds, Lost, Structure, Timely;
    StepMeans(db, after, g, f, at, stickyTimeout);
    StepDeliveries(db, after, g, f, at, stickyTimeout);
    RecordedHistory(db, after, g, f, at, stickyTimeout, key, TimerStart);
    RecordedHistory(db, after, g, f, at, stickyTimeout, key, TimerStop);
    if key == f.Key() && id in Ids(f.result.executed, TimerStart) {
      FreshPlace(db, g, f, id, TimerStart);
      TimerPlace(db, after, g, f, at, stickyTimeout, id);
    } else {
      NoNewTimer(db, g, f, key, id);
      SamePlace(db, after, g, f, at, stickyTimeout, key, id, TimerFire);
      forall t | Holds(db, key, id, TimerFire, t) && Lost(f, t)
        ensures key == f.Key() && id in Ids(f.result.executed, TimerStop)
      {
        NotLostElsewhere(db, f, key, id, TimerFire, t);
        if t.Child? {
          ChildIsSubWorkflow(db, key, id, TimerFire, t);
        }
      }
    }
  }

  lemma TimerRows(db: Db, after: Db, g: Ledger, f: Report, at: Time, stickyTimeout: int, row: PendingRow)
    requires Step(db, after, g, f, at, stickyTimeout) && TimersSettle(db, g)
    requires row in after.pending && row.key !in g.removed && row.event.attributes.TimerFired?
    ensures row.event.scheduleEventID !in Ids(after.HistoryOf(row.key), TimerStop)
  {
    hide Ids, Owned, Once, Sequenced, OneActive, Finality, Known, Accounted, Held, Fresh, Honest, Collect, IsExecuted,
         ExactlyOne, NoToken;
    RecordedHistory(db, after, g, f, at, stickyTimeout, row.key, TimerStop);
    var id := row.event.scheduleEventID;
    if row in RowsFor(f.Key(), f.result.timerEvents) {
      NewTimersStay(db, g, f, row);
      StoppedBefore(db, g, f);
      StopsStarted(db, g, row.key);
    } else if row.key == f.Key() && id in Ids(f.result.executed, TimerStop) {
      StopCancels(db, f, row);
    }
  }

  lemma StopCancels(db: Db, f: Report, row: PendingRow)
    requires Deliveries(db) && row in db.pending && row.event.attributes.TimerFired? && row.key == f.Key()
    requires row.event.scheduleEventID in Ids(f.result.executed, TimerStop)
    ensures IsCanceled(row, f)
  {
    var e: Event :| e in f.result.executed && KindOf(e.attributes) == Some(TimerStop) &&
                    e.scheduleEventID == row.event.scheduleEventID;
  }

  lemma StopsStarted(db: Db, g: Ledger, k: Key)
    requires TimersSettle(db, g)
    ensures Ids(db.HistoryOf(k), TimerStop) <= Ids(db.HistoryOf(k), TimerStart)
  {
  }

  lemma RecordedTimers(db: Db, after: Db, g: Ledger, f: Report, at: Time, stickyTimeout: int)
    requires Step(db, after, g, f, at, stickyTimeout) && TimersSettle(db, g)
    ensures TimersSettle(after, Charged(g, f))
  {
    hide Step, Ids, Holds, Lost, Structure, ExactlyOne, NoToken;
    forall key, id | key !in g.removed
      ensures
        if id !in Ids(after.HistoryOf(key), TimerStart) then NoToken(after, key, id, TimerFire)
        else if id !in Ids(after.HistoryOf(key), TimerStop) then ExactlyOne(after, key, id, TimerFire)
        else NoToken(after, key, id, TimerFire) || ExactlyOne(after, key, id, TimerFire)
    {
      TimerCounts(db, after, g, f, at, stickyTimeout, key, id);
    }
    forall row | row in after.pending && row.key !in g.removed && row.event.attributes.TimerFired?
      ensures row.event.scheduleEventID !in Ids(after.HistoryOf(row.key), TimerStop)
    {
      TimerRows(db, after, g, f, at, stickyTimeout, row);
    }
    forall k | k in after.history
      ensures Ids(after.history[k], TimerStop) <= Ids(after.history[k], TimerStart)
    {
      RecordedHistory(db, after, g, f, at, stickyTimeout, k, TimerStart);
      RecordedHistory(db, after, g, f, at, stickyTimeout, k, TimerStop);
      StepMeans(db, after, g, f, at, stickyTimeout);
      StoppedBefore(db, g, f);
      StopsStarted(db, g, k);
      assert after.HistoryOf(k) == after.history[k];
    }
  }

  // ---------- sub-workflows ----------

  /** The outcome a message carries. */
  function Debt(w: WorkflowEvent): set<(Key, int)> {
    if w.event.attributes.ExecutionStarted? then
      if w.instance.parent.Some? then {(KeyOf(w.instance.parent.value), w.instance.parentEventID)} else {}
    else if IsResult(w.event.attributes) then {(KeyOf(w.instance), w.event.scheduleEventID)}
    else {}
  }

  function Debts(ws: seq<WorkflowEvent>): set<(Key, int)> {
    set w, d | w in ws && d in Debt(w) :: d
  }

  /** What an ending sub-workflow owes its parent. */
  predicate OwnDebt(f: Report, d: (Key, int)) {
    f.result.state != Active && f.task.instance.parent.Some? &&
    d == (KeyOf(f.task.instance.parent.value), f.task.instance.parentEventID)
  }

  /** The messages carry the outcomes of new sub-workflows, and the execution's own if it ends. */
  lemma DebtsMean(db: Db, g: Ledger, f: Report, d: (Key, int))
    requires Timely(db, g, f) && Structure(db, g)
    ensures d in Debts(f.result.workflowEvents) <==>
            OwnDebt(f, d) || (d.0 == f.Key() && d.1 in Ids(f.result.executed, SubWorkflowStart))
  {
    hide Ids, Owned, Once, Sequenced, OneActive, Finality, Known, Accounted, Held, Fresh, Honest, Collect, Started,
         SubInstances;
    HonestIsDecided(db, g, f);
    ExecutedTerminal(db, g, f);
    var h := db.HistoryOf(f.Key());
    if d in Debts(f.result.workflowEvents) {
      var w :| w in f.result.workflowEvents && d in Debt(w);
      DebtMeans(db, g, f, d, w);
    }
    if OwnDebt(f, d) {
      var w := EndHasMessage(f.commands, h, f.task.instance, f.source, f.now);
      assert d in Debt(w);
    } else if d.0 == f.Key() && d.1 in Ids(f.result.executed, SubWorkflowStart) {
      var s := StartDecided(db, g, f, d.1, SubWorkflowStart);
      var w := StartHasMessage(f.commands, h, f.task.instance, f.source, f.now, s);
      assert d in Debt(w);
    }
  }

  lemma DebtMeans(db: Db, g: Ledger, f: Report, d: (Key, int), w: WorkflowEvent)
    requires Timely(db, g, f) && Deliveries(db)
    requires w in f.result.workflowEvents && d in Debt(w)
    ensures w.event.id.Drawn?
    ensures if EndsWith(f.commands) && w.event.id.number == |f.commands| then OwnDebt(f, d)
            else d.0 == f.Key() && d.1 in Ids(f.result.executed, SubWorkflowStart) && d.1 == w.event.id.number
  {
    hide Ids, Held, Fresh, Honest, Collect, Started, SubInstances, Decided;
    HonestIsDecided(db, g, f);
    ExecutedTerminal(db, g, f);
    var h := db.HistoryOf(f.Key());
    MessageMeans(f.commands, h, f.task.instance, f.source, f.now, w);
    if w.event.attributes.ExecutionStarted? && !(EndsWith(f.commands) && w.event.id.number == |f.commands|) {
      var s := MessageHasStart(f.commands, h, f.task.instance, f.source, f.now, w);
      DecidedInIds(db, g, f, s, SubWorkflowStart);
    }
  }

  lemma NoNewSubWorkflow(f: Report, k: Key, id: int)
    ensures forall u :: !NewToken(f, k, id, SubWorkflowEnd, u)
  {
  }

  lemma SubWorkflowCounts(db: Db, after: Db, g: Ledger, f: Report, at: Time, stickyTimeout: int, key: Key, id: int)
    requires Step(db, after, g, f, at, stickyTimeout) && SubWorkflowsSettle(db, g, {}) && key !in g.removed
    ensures
      if id in Ids(after.HistoryOf(key), SubWorkflowStart) && (key, id) !in Debts(f.result.workflowEvents)
      then ExactlyOne(after, key, id, SubWorkflowEnd) else NoToken(after, key, id, SubWorkflowEnd)
    ensures (key, id) in Debts(f.result.workflowEvents) ==> id in Ids(after.HistoryOf(key), SubWorkflowStart)
  {
    hide Step, Ids, Holds, Lost, Structure, Timely, Debts, OwnDebt, NewToken;
    StepMeans(db, after, g, f, at, stickyTimeout);
    StepDeliveries(db, after, g, f, at, stickyTimeout);
    RecordedHistory(db, after, g, f, at, stickyTimeout, key, SubWorkflowStart);
    DebtsMean(db, g, f, (key, id));
    NoNewSubWorkflow(f, key, id);
    SamePlace(db, after, g, f, at, stickyTimeout, key, id, SubWorkflowEnd);
    if key == f.Key() && id in Ids(f.result.executed, SubWorkflowStart) {
      FreshPlace(db, g, f, id, SubWorkflowStart);
    }
    OwnToken(db, after, g, f, at, stickyTimeout, key, id);
    if OwnDebt(f, (key, id)) {
      assert id in Ids(db.HistoryOf(key), SubWorkflowStart) by {
        assert !NoToken(db, key, id, SubWorkflowEnd);
      }
    }
  }

  /** An active sub-workflow is the token for its own outcome, and the only one lost when it ends. */
  lemma OwnToken(db: Db, after: Db, g: Ledger, f: Report, at: Time, stickyTimeout: int, key: Key, id: int)
    requires Step(db, after, g, f, at, stickyTimeout)
    ensures OwnDebt(f, (key, id)) <==> Holds(db, key, id, SubWorkflowEnd, Child(f.Key())) && Lost(f, Child(f.Key()))
    ensures forall t :: Holds(db, key, id, SubWorkflowEnd, t) && Lost(f, t) ==> t == Child(f.Key())
  {
    hide Structure, Honest, Fresh, Timely, IsExecuted, IsCanceled;
    StepDeliveries(db, after, g, f, at, stickyTimeout);
    StepMeans(db, after, g, f, at, stickyTimeout);
    HeldKey(db, g, f);
    forall t | Holds(db, key, id, SubWorkflowEnd, t) && Lost(f, t)
      ensures t == Child(f.Key())
    {
      NotLostElsewhere(db, f, key, id, SubWorkflowEnd, t);
    }
  }

  lemma RecordedSubWorkflows(db: Db, after: Db, g: Ledger, f: Report, at: Time, stickyTimeout: int)
    requires Step(db, after, g, f, at, stickyTimeout) && SubWorkflowsSettle(db, g, {})
    ensures SubWorkflowsSettle(after, Charged(g, f), Debts(f.result.workflowEvents))
  {
    hide Step, Ids, Holds, Debts, ExactlyOne, NoToken;
    var owed := Debts(f.result.workflowEvents);
    forall key, id | key !in g.removed
      ensures if id in Ids(after.HistoryOf(key), SubWorkflowStart) && (key, id) !in owed
              then ExactlyOne(after, key, id, SubWorkflowEnd) else NoToken(after, key, id, SubWorkflowEnd)
    {
      SubWorkflowCounts(db, after, g, f, at, stickyTimeout, key, id);
    }
    forall d | d in owed && d.0 !in g.removed
      ensures d.1 in Ids(after.HistoryOf(d.0), SubWorkflowStart)
    {
      SubWorkflowCounts(db, after, g, f, at, stickyTimeout, d.0, d.1);
    }
  }

  /** Recording a task keeps everything, and owes what its messages carry. */
  lemma RecordKeeps(db: Db, g: Ledger, f: Report, at: Time, stickyTimeout: int) returns (after: Db)
    requires Inv(db, g, {}) && Timely(db, g, f)
    ensures forall e :: e in f.result.activityEvents ==> e.attributes.ActivityScheduled?
    ensures f.Key() in db.instances
    ensures Record(db, f.task, f.result, at, stickyTimeout) == Commit(after)
    ensures RecordedBy(db, after, f, at, stickyTimeout)
    ensures Inv(after, Charged(g, f), Debts(f.result.workflowEvents))
  {
    hide Structure, Timely, ActivitiesSettle, TimersSettle, SubWorkflowsSettle, RecordedBy, Record;
    HeldKey(db, g, f);
    RecordCommits(db, g, f, at, stickyTimeout);
    after := Record(db, f.task, f.result, at, stickyTimeout).db;
    RecordedStructure(db, after, g, f, at, stickyTimeout);
    RecordedActivities(db, after, g, f, at, stickyTimeout);
    RecordedTimers(db, after, g, f, at, stickyTimeout);
    RecordedSubWorkflows(db, after, g, f, at, stickyTimeout);
  }
}
