/**
  The protocol with real executors: workers run tasks with whatever executor their cache holds, against whatever
  history the database returns at that time, and report what the executor produced.
 */
module Cluster {
  import opened Basics
  import opened History
  import opened Execution
  import opened Determinism
  import opened Histories
  import opened CacheTransparency
  import opened Contract
  import opened Lawfulness
  import opened Database
  import opened Ledgers
  import opened Recording
  import opened Protocol
  import opened Guarantees

  type Place = (Worker, Key)

  /** An executed task whose completion was not sent yet. */
  datatype Hand = Hand(report: Report, executor: Executor)

  datatype State = State(system: System, caches: map<Place, Executor>, hands: map<Place, Hand>)

  datatype Move =
    | Transact(call: Call)
    | Execute(worker: Worker, key: Key, now: Time, source: nat, replaySource: nat)
    | Send(worker: Worker, key: Key, settings: Settings, at: Time, order: seq<Instance>)
    | Evict(worker: Worker, key: Key)
    | Drop(worker: Worker, key: Key)  // the worker loses the task and the executor, as in a crash

  const Idle := State(Empty, map[], map[])

  predicate HoldsLease(s: System, w: Worker, key: Key) {
    key in s.db.instances && s.db.instances[key].worker == Some(w)
  }

  predicate Enabled(p: Program, c: State, m: Move, maxHistorySize: int) {
    match m
    case Transact(call) => !call.Finish? && !call.Forget? && Permitted(c.system, call)
    case Execute(w, key, now, source, replaySource) =>
      (w, key) in c.system.claims && (w, key) !in c.hands &&
      var t := c.system.claims[(w, key)].task;
      && t.lastSequenceID + 1 + |t.newEvents| < maxHistorySize
      && (HoldsLease(c.system, w, key) ==> RestfulAfter(p, t.instance, c.system.db.HistoryOf(key), t, now, source))
    case Send(w, key, settings, at, order) =>
      (w, key) in c.hands && (w, key) in c.system.claims && Fresh(c.system.ledger, c.hands[(w, key)].report.source) &&
      IsOrder(order, c.hands[(w, key)].report.result.workflowEvents)
    case Evict(w, key) => true
    case Drop(w, key) => true
  }

  /** getExecutor: the cached executor, or a new one. */
  function ExecutorFor(c: State, w: Worker, key: Key, replaySource: nat): Executor
    requires (w, key) in c.system.claims
  {
    if (w, key) in c.caches then c.caches[(w, key)]
    else NewExecutor(c.system.claims[(w, key)].task.instance, replaySource)
  }

  function ReportOf(p: Program, ready: Executor, t: Task, now: Time, source: nat, result: ExecutionResult): Report {
    match Executing(p, ready, t, now, source)
    case Batch(core, executed) => Report(t, result, now, source, |executed|, core.commands)
    case BatchCrash => Report(t, result, now, source, 0, [])
  }

  function Dropped(c: State, w: Worker, key: Key): State {
    State(c.system.(claims := c.system.claims - {(w, key)}), c.caches - {(w, key)}, c.hands - {(w, key)})
  }

  /** A worker executes a task it was given; the executor is changed in place, so the cache no longer counts. */
  function AfterExecute(p: Program, c: State, w: Worker, key: Key, now: Time, source: nat, replaySource: nat,
                        maxHistorySize: int): State
    requires (w, key) in c.system.claims
  {
    var t, h := c.system.claims[(w, key)].task, c.system.db.HistoryOf(key);
    var x := ExecutorFor(c, w, key, replaySource);
    match ExecuteTask(p, x, t, h, now, source, replaySource, maxHistorySize)
    case ProcessCrash => Dropped(c, w, key)
    case Refused(next, _) => State(c.system.(claims := c.system.claims - {(w, key)}), c.caches[(w, key) := next], c.hands)
    case Executed(next, result) =>
      var ready := match CatchUp(p, x, t, h, replaySource) case Ready(y, _) => y case _ => x;
      c.(caches := c.caches - {(w, key)}, hands := c.hands[(w, key) := Hand(ReportOf(p, ready, t, now, source, result), next)])
  }

  /** CompleteWorkflowTask without the lease is rejected whatever is reported, so the task is just forgotten. */
  ghost function AfterMove(p: Program, c: State, m: Move, maxHistorySize: int): State
    requires Enabled(p, c, m, maxHistorySize)
    requires Coherent(p, c)
  {
    match m
    case Transact(call) => c.(system := After(c.system, call))
    case Execute(w, key, now, source, replaySource) => AfterExecute(p, c, w, key, now, source, replaySource, maxHistorySize)
    case Send(w, key, settings, at, order) =>
      if HoldsLease(c.system, w, key) then
        var hand := c.hands[(w, key)];
        ReportPermitted(p, c, m, maxHistorySize);
        State(After(c.system, Finish(w, key, hand.report, settings, at, order)),
              if hand.report.result.state == Active then c.caches[(w, key) := hand.executor] else c.caches,
              c.hands - {(w, key)})
      else Dropped(c, w, key)
    case Evict(w, key) => c.(caches := c.caches - {(w, key)})
    case Drop(w, key) => Dropped(c, w, key)
  }

  // ---------- the invariant ----------

  predicate Live(db: Db, key: Key) {
    key in db.instances && db.instances[key].state == Active
  }

  function Self(db: Db, key: Key): Instance
    requires key in db.instances
  {
    InstanceAt(key, db.instances[key])
  }

  /** Every active execution can be rebuilt from its history. */
  ghost predicate Replayable(p: Program, db: Db) {
    forall key :: Live(db, key) ==> CacheTransparency.Recorded(p, Self(db, key), db.HistoryOf(key))
  }

  predicate AllLawful(db: Db) {
    forall key :: key in db.instances ==> Lawful(db.HistoryOf(key))
  }

  /** A cached executor is where replaying some prefix of the history ends. */
  ghost predicate CacheHolds(p: Program, db: Db, key: Key, x: Executor) {
    Live(db, key) ==>
      0 <= x.lastSequenceID <= |db.HistoryOf(key)| &&
      Agrees(p, Self(db, key), db.HistoryOf(key)[..x.lastSequenceID], x)
  }

  /** While the worker has the lease, its report is honest, and replaying it agrees with its executor. */
  ghost predicate HandHolds(p: Program, s: System, w: Worker, key: Key, hand: Hand) {
    (w, key) in s.claims && hand.report.task == s.claims[(w, key)].task &&
    (HoldsLease(s, w, key) ==>
       var h, f := s.claims[(w, key)].seen, hand.report;
       && Honest(h, f.task, f.result, f.now, f.source, f.count, f.commands)
       && Lawful(h + f.result.executed)
       && (f.result.state == Active ==> Agrees(p, Self(s.db, key), h + f.result.executed, hand.executor)))
  }

  predicate Placed(s: System, key: Key) {
    key in s.db.instances || key in s.ledger.removed
  }

  predicate TaskHolds(s: System, key: Key, claim: Claim) {
    Placed(s, key) && claim.task.state == Active && (key in s.db.instances ==> claim.task.instance == Self(s.db, key))
  }

  ghost predicate Coherent(p: Program, c: State) {
    && Sane(c.system) && Replayable(p, c.system.db) && AllLawful(c.system.db)
    && (forall q :: q in c.system.claims ==> TaskHolds(c.system, q.1, c.system.claims[q]))
    && (forall q :: q in c.caches ==> Placed(c.system, q.1) && CacheHolds(p, c.system.db, q.1, c.caches[q]))
    && (forall q :: q in c.hands ==> HandHolds(p, c.system, q.0, q.1, c.hands[q]))
  }

  lemma ReportPermitted(p: Program, c: State, m: Move, maxHistorySize: int)
    requires Coherent(p, c) && m.Send? && Enabled(p, c, m, maxHistorySize) && HoldsLease(c.system, m.worker, m.key)
    ensures Permitted(c.system, Finish(m.worker, m.key, c.hands[(m.worker, m.key)].report, m.settings, m.at, m.order))
  {
    hide Sane, Replayable, AllLawful, Agrees, Honest, Lawful, IsOrder;
    assert HandHolds(p, c.system, m.worker, m.key, c.hands[(m.worker, m.key)]);
  }

  lemma IdleIsCoherent(p: Program)
    ensures Coherent(p, Idle)
  {
    hide Sane;
    EmptyIsSane();
  }

  // ---------- transactions ----------

  lemma CacheKept(p: Program, s: System, call: Call, s': System, key: Key, x: Executor)
    requires StepOn(s, call, s', key) && Placed(s, key) && CacheHolds(p, s.db, key, x)
    ensures Placed(s', key) && CacheHolds(p, s'.db, key, x)
  {
    hide Agrees;
    if Live(s'.db, key) {
      assert key in s.db.instances;
      var n := x.lastSequenceID;
      assert s'.db.HistoryOf(key)[..n] == s.db.HistoryOf(key)[..n];
    }
  }

  lemma TaskKept(s: System, call: Call, s': System, key: Key, claim: Claim)
    requires StepOn(s, call, s', key) && TaskHolds(s, key, claim)
    ensures TaskHolds(s', key, claim)
  {
  }

  lemma HandKept(p: Program, s: System, call: Call, s': System, w: Worker, key: Key, hand: Hand)
    requires StepOn(s, call, s', key) && HandHolds(p, s, w, key, hand) && Placed(s, key)
    requires (w, key) in s'.claims && s'.claims[(w, key)] == s.claims[(w, key)]
    requires !(call.Fetch? && call.worker == w && call.key == key)
    ensures HandHolds(p, s', w, key, hand)
  {
    hide Agrees, Honest, Lawful;
  }

  lemma NewbornReplays(p: Program, instance: Instance)
    ensures CacheTransparency.Recorded(p, instance, [])
  {
    NewExecutorAgrees(p, instance, 0);
  }

  lemma ReplayableKept(p: Program, s: System, call: Call, s': System)
    requires Replayable(p, s.db) && forall key :: StepOn(s, call, s', key)
    requires call.Finish? && Live(s'.db, call.key) && s'.db.HistoryOf(call.key) != s.db.HistoryOf(call.key) ==>
               CacheTransparency.Recorded(p, Self(s'.db, call.key), s'.db.HistoryOf(call.key))
    ensures Replayable(p, s'.db)
  {
    hide CacheTransparency.Recorded;
    forall key | Live(s'.db, key)
      ensures CacheTransparency.Recorded(p, Self(s'.db, key), s'.db.HistoryOf(key))
    {
      assert StepOn(s, call, s', key);
      if key !in s.db.instances {
        NewbornReplays(p, Self(s'.db, key));
      }
    }
  }

  /** Histories that do not grow stay lawful. */
  lemma LawfulKept(s: System, call: Call, s': System)
    requires AllLawful(s.db) && forall key :: StepOn(s, call, s', key)
    requires call.Finish? && call.key in s'.db.instances && s'.db.HistoryOf(call.key) != s.db.HistoryOf(call.key) ==>
               Lawful(s'.db.HistoryOf(call.key))
    ensures AllLawful(s'.db)
  {
    hide Lawful;
    forall key | key in s'.db.instances
      ensures Lawful(s'.db.HistoryOf(key))
    {
      assert StepOn(s, call, s', key);
      NothingIsLawful();
    }
  }

  /** What a step other than finishing a task does to the claims. */
  lemma ClaimsAfter(s: System, call: Call)
    requires Permitted(s, call) && !call.Finish? && !call.Forget?
    ensures forall q :: q in s.claims ==> q in After(s, call).claims && After(s, call).claims[q] == s.claims[q]
    ensures forall q :: q in After(s, call).claims && q !in s.claims ==>
              call.Fetch? && q == (call.worker, call.key) && TaskHolds(After(s, call), q.1, After(s, call).claims[q])
    ensures call.Fetch? ==> (call.worker, call.key) !in s.claims
  {
    hide Enumerates, VisibleRows, HasActive, PendingConflict;
  }

  lemma TransactCoherent(p: Program, c: State, m: Move, maxHistorySize: int)
    requires Coherent(p, c) && m.Transact? && Enabled(p, c, m, maxHistorySize)
    ensures Coherent(p, AfterMove(p, c, m, maxHistorySize))
  {
    hide Sane, Replayable, AllLawful, Permitted, After, CacheHolds, HandHolds, TaskHolds, StepOn, Placed;
    var s, s' := c.system, After(c.system, m.call);
    StepSane(s, m.call);
    forall key
      ensures StepOn(s, m.call, s', key)
    {
      Stepwise(s, m.call, key);
    }
    ReplayableKept(p, s, m.call, s');
    LawfulKept(s, m.call, s');
    ClaimsAfter(s, m.call);
    forall q | q in s'.claims
      ensures TaskHolds(s', q.1, s'.claims[q])
    {
      if q in s.claims {
        TaskKept(s, m.call, s', q.1, s.claims[q]);
      }
    }
    forall q | q in c.caches
      ensures Placed(s', q.1) && CacheHolds(p, s'.db, q.1, c.caches[q])
    {
      CacheKept(p, s, m.call, s', q.1, c.caches[q]);
    }
    forall q | q in c.hands
      ensures HandHolds(p, s', q.0, q.1, c.hands[q])
    {
      HandClaimed(p, s, q.0, q.1, c.hands[q]);
      TaskPlaced(s, q.1, s.claims[q]);
      HandKept(p, s, m.call, s', q.0, q.1, c.hands[q]);
    }
  }

  lemma HandClaimed(p: Program, s: System, w: Worker, key: Key, hand: Hand)
    requires HandHolds(p, s, w, key, hand)
    ensures (w, key) in s.claims && hand.report.task == s.claims[(w, key)].task
  {
    hide Agrees, Honest, Lawful;
  }

  lemma TaskPlaced(s: System, key: Key, claim: Claim)
    requires TaskHolds(s, key, claim)
    ensures Placed(s, key)
  {
  }

  // ---------- losing things ----------

  lemma DroppedCoherent(p: Program, c: State, w: Worker, key: Key)
    requires Coherent(p, c)
    ensures Coherent(p, Dropped(c, w, key))
  {
    hide Inv, Replayable, AllLawful, CacheHolds, Agrees, Honest, Lawful, ClaimHolds;
    var c' := Dropped(c, w, key);
    forall q | q in c'.hands
      ensures HandHolds(p, c'.system, q.0, q.1, c'.hands[q])
    {
      assert HandHolds(p, c.system, q.0, q.1, c.hands[q]);
    }
  }

  lemma EvictCoherent(p: Program, c: State, w: Worker, key: Key)
    requires Coherent(p, c)
    ensures Coherent(p, c.(caches := c.caches - {(w, key)}))
  {
    hide Sane, Replayable, AllLawful, CacheHolds, HandHolds, TaskHolds;
  }

  // ---------- executing a task ----------

  /** Whatever executor is used, it agrees with a prefix of the history. */
  lemma ExecutorAgrees(p: Program, c: State, w: Worker, key: Key, replaySource: nat)
    requires Coherent(p, c) && (w, key) in c.system.claims && Live(c.system.db, key)
    ensures
      var x, h := ExecutorFor(c, w, key, replaySource), c.system.db.HistoryOf(key);
      && c.system.claims[(w, key)].task.instance == Self(c.system.db, key)
      && CacheTransparency.Recorded(p, Self(c.system.db, key), h)
      && 0 <= x.lastSequenceID <= |h| && Agrees(p, Self(c.system.db, key), h[..x.lastSequenceID], x)
  {
    hide Sane, Agrees, HandHolds, CacheTransparency.Recorded;
    var h := c.system.db.HistoryOf(key);
    if (w, key) in c.caches {
      assert CacheHolds(p, c.system.db, key, c.caches[(w, key)]);
    } else {
      NewExecutorAgrees(p, Self(c.system.db, key), replaySource);
      assert h[..0] == [];
    }
  }

  /** The holder of the lease executes against exactly the history its task was fetched with. */
  lemma HolderSees(p: Program, c: State, w: Worker, key: Key)
    requires Coherent(p, c) && (w, key) in c.system.claims && HoldsLease(c.system, w, key)
    ensures
      var claim := c.system.claims[(w, key)];
      && Live(c.system.db, key) && c.system.db.HistoryOf(key) == claim.seen && claim.task.lastSequenceID == |claim.seen|
      && claim.task.state == Active
      && forall j :: 0 <= j < |claim.task.newEvents| ==> Deliverable(claim.task.newEvents[j].attributes)
  {
    hide Replayable, AllLawful, CacheHolds, HandHolds, Owned, Once, Sequenced, OneActive, Finality, Known, Accounted,
         ActivitiesSettle, TimersSettle,
         SubWorkflowsSettle, Deliverable, DistinctIds;
    var claim := c.system.claims[(w, key)];
    assert ClaimHolds(c.system.db, w, key, claim);
    assert TaskHolds(c.system, key, claim);
    forall j | 0 <= j < |claim.task.newEvents|
      ensures Deliverable(claim.task.newEvents[j].attributes)
    {
      assert claim.task.newEvents[j] in claim.task.newEvents;
      assert PendingRow(key, claim.task.newEvents[j]) in c.system.db.pending;
    }
  }

  predicate HonestReport(h: seq<Event>, t: Task, result: ExecutionResult, f: Report) {
    Honest(h, f.task, f.result, f.now, f.source, f.count, f.commands) && f.task == t && f.result == result
  }

  /** A task is only refused because it does not fit the history. */
  lemma RefusedBehind(p: Program, x: Executor, t: Task, h: seq<Event>, now: Time, source: nat, replaySource: nat,
                      maxHistorySize: int)
    requires t.state == Active
    ensures
      match ExecuteTask(p, x, t, h, now, source, replaySource, maxHistorySize)
      case Refused(next, reason) => CatchUp(p, x, t, h, replaySource) == Behind(next, reason)
      case _ => true
    ensures forall ready :: !Work(p, ready, false, t, now, source, maxHistorySize).Refused?
  {
    hide CatchUp, ExecuteNewEvents, Checkpoint;
  }

  /** So its report is honest, and if the execution goes on its executor agrees with the longer history. */
  lemma HolderReports(p: Program, c: State, w: Worker, key: Key, now: Time, source: nat, replaySource: nat,
                      maxHistorySize: int)
    requires Coherent(p, c) && Enabled(p, c, Execute(w, key, now, source, replaySource), maxHistorySize)
    requires HoldsLease(c.system, w, key)
    ensures
      var t, h := c.system.claims[(w, key)].task, c.system.db.HistoryOf(key);
      match ExecuteTask(p, ExecutorFor(c, w, key, replaySource), t, h, now, source, replaySource, maxHistorySize)
      case Refused(_, _) => false
      case ProcessCrash => true
      case Executed(next, result) =>
        var y := CatchUp(p, ExecutorFor(c, w, key, replaySource), t, h, replaySource);
        && y.Ready? && HonestReport(h, t, result, ReportOf(p, y.executor, t, now, source, result))
        && Lawful(h + result.executed)
        && (result.state == Active ==> Agrees(p, Self(c.system.db, key), h + result.executed, next))
  {
    hide Coherent, Agrees, Work, CatchUp, CacheTransparency.Recorded, ErrorFree, Honest, Lawful, Executing;
    var t, h, self := c.system.claims[(w, key)].task, c.system.db.HistoryOf(key), Self(c.system.db, key);
    HolderSees(p, c, w, key);
    ExecutorAgrees(p, c, w, key, replaySource);
    var x := ExecutorFor(c, w, key, replaySource);
    CatchUpAgrees(p, self, h, x.lastSequenceID, x, t, replaySource);
    var ready := CatchUp(p, x, t, h, replaySource).executor;
    AgreesMeans(p, self, h, ready);
    var outcome := Work(p, ready, false, t, now, source, maxHistorySize);
    RefusedBehind(p, x, t, h, now, source, replaySource, maxHistorySize);
    if outcome.Executed? {
      var m, cs := ExecutorIsHonest(p, h, ready, t, now, source, maxHistorySize);
      TaskIsLawful(p, h, ready, t, now, source, maxHistorySize);
      if outcome.result.state == Active {
        if !ErrorFree(p, ready, t, now, source, maxHistorySize) {
          ErrorsEnd(p, ready, t, now, source, maxHistorySize);
        }
        RestfulWherever(p, self, h, ready, t, now, source);
        WorkAgrees(p, self, h, ready, t, now, source, maxHistorySize);
      }
    }
  }

  lemma ExecuteCoherent(p: Program, c: State, m: Move, maxHistorySize: int)
    requires Coherent(p, c) && m.Execute? && Enabled(p, c, m, maxHistorySize)
    ensures Coherent(p, AfterMove(p, c, m, maxHistorySize))
  {
    hide Sane, Replayable, AllLawful, Agrees, CatchUp, Work, Honest, Lawful, CacheTransparency.Recorded, Executing;
    var w, key := m.worker, m.key;
    var t, h := c.system.claims[(w, key)].task, c.system.db.HistoryOf(key);
    var x := ExecutorFor(c, w, key, m.replaySource);
    var c' := AfterMove(p, c, m, maxHistorySize);
    var outcome := ExecuteTask(p, x, t, h, m.now, m.source, m.replaySource, maxHistorySize);
    assert TaskHolds(c.system, key, c.system.claims[(w, key)]);
    RefusedBehind(p, x, t, h, m.now, m.source, m.replaySource, maxHistorySize);
    if Live(c.system.db, key) {
      ExecutorAgrees(p, c, w, key, m.replaySource);
      CatchUpKeeps(p, Self(c.system.db, key), h, x.lastSequenceID, x, t, m.replaySource);
    }
    if HoldsLease(c.system, w, key) {
      HolderSees(p, c, w, key);
      HolderReports(p, c, w, key, m.now, m.source, m.replaySource, maxHistorySize);
    }
    match outcome
    case ProcessCrash => DroppedCoherent(p, c, w, key);
    case Refused(next, _) =>
      RefusedCoherent(p, c, w, key, next);
    case Executed(next, result) =>
      ExecutedCoherent(p, c, w, key, c'.hands[(w, key)]);
  }

  lemma RefusedCoherent(p: Program, c: State, w: Worker, key: Key, next: Executor)
    requires Coherent(p, c) && (w, key) in c.system.claims && (w, key) !in c.hands &&
             CacheHolds(p, c.system.db, key, next)
    ensures Coherent(p, State(c.system.(claims := c.system.claims - {(w, key)}), c.caches[(w, key) := next], c.hands))
  {
    hide Inv, Replayable, AllLawful, CacheHolds, Agrees, Honest, Lawful, ClaimHolds;
    var c' := State(c.system.(claims := c.system.claims - {(w, key)}), c.caches[(w, key) := next], c.hands);
    assert TaskHolds(c.system, key, c.system.claims[(w, key)]);
    forall q | q in c'.hands
      ensures HandHolds(p, c'.system, q.0, q.1, c'.hands[q])
    {
      assert HandHolds(p, c.system, q.0, q.1, c.hands[q]);
    }
  }

  lemma ExecutedCoherent(p: Program, c: State, w: Worker, key: Key, hand: Hand)
    requires Coherent(p, c) && HandHolds(p, c.system, w, key, hand)
    ensures Coherent(p, c.(caches := c.caches - {(w, key)}, hands := c.hands[(w, key) := hand]))
  {
    hide Sane, Replayable, AllLawful, CacheHolds, HandHolds, TaskHolds;
  }

  // ---------- completing a task ----------

  lemma SendCoherent(p: Program, c: State, m: Move, maxHistorySize: int)
    requires Coherent(p, c) && m.Send? && Enabled(p, c, m, maxHistorySize)
    ensures Coherent(p, AfterMove(p, c, m, maxHistorySize))
  {
    hide Sane, Replayable, AllLawful, Permitted, After, CacheHolds, TaskHolds, StepOn, Placed, Agrees, Honest, Lawful,
         IsOrder, TaskTx;
    var w, key := m.worker, m.key;
    if HoldsLease(c.system, w, key) {
      ReportPermitted(p, c, m, maxHistorySize);
      var hand := c.hands[(w, key)];
      var call := Finish(w, key, hand.report, m.settings, m.at, m.order);
      var s, s', c' := c.system, After(c.system, call), AfterMove(p, c, m, maxHistorySize);
      StepSane(s, call);
      forall k
        ensures StepOn(s, call, s', k)
      {
        Stepwise(s, call, k);
      }
      FinishedClaims(s, call);
      SentHistory(p, c, call, hand);
      SentIsLawful(p, c, call, hand);
      ReplayableKept(p, s, call, s');
      LawfulKept(s, call, s');
      forall q | q in s'.claims
        ensures TaskHolds(s', q.1, s'.claims[q])
      {
        TaskKept(s, call, s', q.1, s.claims[q]);
      }
      TaskKept(s, call, s', key, s.claims[(w, key)]);
      TaskPlaced(s', key, s.claims[(w, key)]);
      forall q | q in c'.caches
        ensures Placed(s', q.1) && CacheHolds(p, s'.db, q.1, c'.caches[q])
      {
        if q in c.caches && c'.caches[q] == c.caches[q] {
          CacheKept(p, s, call, s', q.1, c.caches[q]);
        }
      }
      forall q | q in c'.hands
        ensures HandHolds(p, s', q.0, q.1, c'.hands[q])
      {
        HandClaimed(p, s, q.0, q.1, c.hands[q]);
        TaskPlaced(s, q.1, s.claims[q]);
        HandKept(p, s, call, s', q.0, q.1, c.hands[q]);
      }
    } else {
      DroppedCoherent(p, c, w, key);
    }
  }

  lemma FinishedClaims(s: System, call: Call)
    requires call.Finish? && Permitted(s, call)
    ensures After(s, call).claims == s.claims - {(call.worker, call.key)}
  {
    hide Honest, Lawful, Fresh, IsOrder, Completed;
  }

  /** What was sent is recorded, and the sender's executor agrees with it. */
  lemma SentHistory(p: Program, c: State, call: Call, hand: Hand)
    requires Coherent(p, c) && call.Finish? && Permitted(c.system, call) && HoldsLease(c.system, call.worker, call.key)
    requires (call.worker, call.key) in c.hands && c.hands[(call.worker, call.key)] == hand &&
             call.report == hand.report
    ensures
      var db' := After(c.system, call).db;
      && CacheHolds(p, db', call.key, hand.executor)
      && (Live(db', call.key) ==>
            hand.report.result.state == Active &&
            CacheTransparency.Recorded(p, Self(db', call.key), db'.HistoryOf(call.key)))
  {
    hide Sane, Replayable, AllLawful, Permitted, After, TaskHolds, Agrees, Honest, Lawful, TaskTx,
         CacheTransparency.Recorded;
    var s, s' := c.system, After(c.system, call);
    Fencing(s, call);
    Stepwise(s, call, call.key);
    assert HandHolds(p, s, call.worker, call.key, hand);
    if Live(s'.db, call.key) {
      var h := s'.db.HistoryOf(call.key);
      AgreesMeans(p, Self(s.db, call.key), h, hand.executor);
      assert h[..|h|] == h;
    }
  }

  /** If the history grew, it did so lawfully. */
  lemma SentIsLawful(p: Program, c: State, call: Call, hand: Hand)
    requires Coherent(p, c) && call.Finish? && Permitted(c.system, call) && HoldsLease(c.system, call.worker, call.key)
    requires (call.worker, call.key) in c.hands && c.hands[(call.worker, call.key)] == hand &&
             call.report == hand.report
    ensures
      var db' := After(c.system, call).db;
      db'.HistoryOf(call.key) != c.system.db.HistoryOf(call.key) && call.key in db'.instances ==>
        Lawful(db'.HistoryOf(call.key))
  {
    hide Sane, Replayable, AllLawful, Permitted, After, TaskHolds, Agrees, Honest, TaskTx, Lawful;
    Fencing(c.system, call);
    Stepwise(c.system, call, call.key);
    assert HandHolds(p, c.system, call.worker, call.key, hand);
  }

  // ---------- whole runs of the cluster ----------

  lemma MoveCoherent(p: Program, c: State, m: Move, maxHistorySize: int)
    requires Coherent(p, c) && Enabled(p, c, m, maxHistorySize)
    ensures Coherent(p, AfterMove(p, c, m, maxHistorySize))
  {
    hide Coherent, Enabled;
    match m
    case Transact(_) => TransactCoherent(p, c, m, maxHistorySize);
    case Execute(_, _, _, _, _) => ExecuteCoherent(p, c, m, maxHistorySize);
    case Send(_, _, _, _, _) => SendCoherent(p, c, m, maxHistorySize);
    case Evict(w, key) => EvictCoherent(p, c, w, key);
    case Drop(w, key) => DroppedCoherent(p, c, w, key);
  }

  /** The states a cluster gets to. */
  ghost predicate Follows(p: Program, c: State, moves: seq<Move>, maxHistorySize: int, end: State)
    decreases |moves|
  {
    if moves == [] then end == c
    else
      Enabled(p, c, moves[0], maxHistorySize) && Coherent(p, c) &&
      Follows(p, AfterMove(p, c, moves[0], maxHistorySize), moves[1..], maxHistorySize, end)
  }

  lemma {:induction false} CoherentRun(p: Program, c: State, moves: seq<Move>, maxHistorySize: int, end: State)
    requires Coherent(p, c) && Follows(p, c, moves, maxHistorySize, end)
    ensures Coherent(p, end)
    decreases |moves|
  {
    hide Coherent, Enabled, AfterMove;
    if moves != [] {
      MoveCoherent(p, c, moves[0], maxHistorySize);
      CoherentRun(p, AfterMove(p, c, moves[0], maxHistorySize), moves[1..], maxHistorySize, end);
    }
  }

  /** Every enabled move carries a run on: the invariant, which `AfterMove` relies on, never stands in the way. */
  lemma {:induction false} FollowsOn(p: Program, c: State, moves: seq<Move>, maxHistorySize: int, end: State, m: Move)
    requires Coherent(p, c) && Follows(p, c, moves, maxHistorySize, end) && Enabled(p, end, m, maxHistorySize)
    ensures Coherent(p, end) && Follows(p, c, moves + [m], maxHistorySize, AfterMove(p, end, m, maxHistorySize))
    decreases |moves|
  {
    hide Coherent, Enabled, AfterMove;
    if moves == [] {
      assert [m][1..] == [] && moves + [m] == [m];
      assert Follows(p, AfterMove(p, end, m, maxHistorySize), [], maxHistorySize, AfterMove(p, end, m, maxHistorySize));
    } else {
      MoveCoherent(p, c, moves[0], maxHistorySize);
      FollowsOn(p, AfterMove(p, c, moves[0], maxHistorySize), moves[1..], maxHistorySize, end, m);
      assert (moves + [m])[1..] == moves[1..] + [m];
    }
  }

  /**
    However workers, their caches and clients are interleaved: every account settles, every history is
    lawful, and every active execution's history replays without error.
   */
  lemma EveryClusterRun(p: Program, moves: seq<Move>, maxHistorySize: int, end: State)
    requires Follows(p, Idle, moves, maxHistorySize, end)
    ensures Inv(end.system.db, end.system.ledger, {})
    ensures forall key :: key in end.system.db.instances ==> Lawful(end.system.db.HistoryOf(key))
    ensures forall key :: Live(end.system.db, key) ==>
              CacheTransparency.Recorded(p, Self(end.system.db, key), end.system.db.HistoryOf(key))
  {
    hide Follows, Inv, Lawful, CacheTransparency.Recorded, CacheHolds, HandHolds, TaskHolds, ClaimsHold;
    IdleIsCoherent(p);
    CoherentRun(p, Idle, moves, maxHistorySize, end);
  }
}
