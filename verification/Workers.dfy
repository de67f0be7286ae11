/** A workflow worker with its cache of executors (internal/worker/workflow.go). */
module Workers {
  import opened Basics
  import opened History
  import opened Execution
  import opened Executors
  import opened Database
  import opened Backends

  class WorkflowTaskWorker {
    const program: Program
    const maxHistorySize: int
    var cache: map<Key, Executors.Executor>
    ghost var Repr: set<object>

    /** Cached executors are sound and share nothing. */
    ghost predicate Valid()
      reads this, Repr
    {
      && this !in Repr
      && (forall k :: k in cache ==> Within(cache[k], Repr) && cache[k].Valid())
      && (forall j, k :: j in cache && k in cache && j != k ==> Apart(cache[j], cache[k], Repr))
    }

    constructor (program: Program, maxHistorySize: int)
      ensures Valid() && cache == map[] && this.program == program && this.maxHistorySize == maxHistorySize
    {
      this.program, this.maxHistorySize, cache, Repr := program, maxHistorySize, map[], {};
    }

    /** The cached executor, or a new one, which is then cached. */
    method GetExecutor(t: Task, replaySource: nat) returns (e: Executors.Executor)
      requires Valid()
      modifies this
      ensures Valid() && fresh(Repr - old(Repr)) && e in Repr && e.state in Repr
      ensures cache == old(cache)[KeyOf(t.instance) := e]
      ensures if KeyOf(t.instance) in old(cache) then e == old(cache)[KeyOf(t.instance)]
              else fresh(e) && fresh(e.state) && e.Value() == NewExecutor(t.instance, replaySource)
      ensures forall k :: k in old(cache) ==> cache[k] == old(cache)[k] && cache[k].Value() == old(cache[k].Value())
    {
      hide Executors.Executor.Valid, Executors.Executor.Value, NewExecutor, Apart;
      var key := KeyOf(t.instance);
      if key in cache {
        e := cache[key];
        assert cache[key := e] == cache;
      } else {
        e := new Executors.Executor(t.instance, replaySource);
        Store(key, e);
      }
    }

    /** Caches an executor that shares nothing with the others. */
    method Store(key: Key, e: Executors.Executor)
      requires Valid() && key !in cache && e.Valid() && this !in {e, e.state} + e.state.Repr
      requires Repr !! {e, e.state} + e.state.Repr
      modifies this
      ensures Valid() && cache == old(cache)[key := e] && Repr == old(Repr) + {e, e.state} + e.state.Repr
    {
      hide Executors.Executor.Valid;
      cache, Repr := cache[key := e], Repr + {e, e.state} + e.state.Repr;
    }

    /** Evicts the executor of an execution that is over. */
    method Evict(key: Key)
      requires Valid()
      modifies this`cache
      ensures Valid() && cache == old(cache) - {key}
    {
      cache := cache - {key};
    }

    /** Sends the result of a task to the backend; only the executor of an execution that is over is evicted. */
    method Complete(backend: Backend, t: Task, result: ExecutionResult, now: Time, source: nat)
      returns (error: Option<TxError>, ghost order: seq<Instance>)
      requires Valid() && backend !in Repr
      requires forall e :: e in result.activityEvents ==> e.attributes.ActivityScheduled?
      modifies this`cache, backend
      ensures Valid()
      ensures cache == if result.state == Active then old(cache) else old(cache) - {KeyOf(t.instance)}
      ensures IsOrder(order, result.workflowEvents)
      ensures Reflects(CompleteWorkflowTask(old(backend.db), backend.workerName, t, result, backend.settings, now, source, order),
                       error, old(backend.db), backend.db)
    {
      hide CompleteWorkflowTask, Valid, Reflects;
      if result.state != Active {
        Evict(KeyOf(t.instance));
      }
      error, order := backend.CompleteWorkflowTask(t, result, now, source);
    }

    /** Executes a task with the cached executor, or a new one; the executor stays cached and is changed in place. */
    method Execute(t: Task, history: seq<Event>, now: Time, source: nat, replaySource: nat)
      returns (outcome: TaskStatus)
      requires Valid()
      modifies this, Repr
      ensures Valid() && fresh(Repr - old(Repr))
      ensures cache.Keys == old(cache.Keys) + {KeyOf(t.instance)}
      ensures
        var key := KeyOf(t.instance);
        var x := if key in old(cache) then old(cache[key].Value()) else NewExecutor(t.instance, replaySource);
        && Matches(ExecuteTask(program, x, t, history, now, source, replaySource, maxHistorySize), outcome, cache[key].Value())
        && forall k :: k in old(cache) && k != key ==> cache[k] == old(cache)[k] && cache[k].Value() == old(cache[k].Value())
    {
      hide Executors.Executor.Valid, Executors.Executor.Value, NewExecutor, ExecuteTask, Matches, Valid;
      var e := GetExecutor(t, replaySource);
      outcome := ExecuteCached(KeyOf(t.instance), t, history, now, source, replaySource);
    }

    method ExecuteCached(key: Key, t: Task, history: seq<Event>, now: Time, source: nat, replaySource: nat)
      returns (outcome: TaskStatus)
      requires Valid() && key in cache
      modifies this`Repr, Repr
      ensures Valid() && fresh(Repr - old(Repr)) && cache == old(cache)
      ensures Matches(
                ExecuteTask(program, old(cache[key].Value()), t, history, now, source, replaySource, maxHistorySize),
                outcome, cache[key].Value())
      ensures forall k :: k in cache && k != key ==> cache[k].Value() == old(cache[k].Value())
    {
      hide Executors.Executor.Valid, Executors.Executor.Value, ExecuteTask, Matches;
      var e := cache[key];
      outcome := e.ExecuteTask(program, t, history, now, source, replaySource, maxHistorySize);
      Repr := Repr + e.state.Repr;
      forall k | k in cache && k != key
        ensures Apart(cache[k], e, Repr) && Within(cache[k], Repr) && cache[k].Valid()
        ensures cache[k].Value() == old(cache[k].Value())
      {
        assert old(Apart(cache[k], e, Repr)) && old(Within(cache[k], Repr));
      }
    }
  }

  ghost predicate Within(e: Executors.Executor, objects: set<object>)
    reads objects
  {
    e in objects && e.state in objects && e.state.Repr <= objects
  }

  ghost predicate Apart(e: Executors.Executor, f: Executors.Executor, objects: set<object>)
    reads objects
  {
    e in objects && f in objects && e.state in objects && f.state in objects &&
    {e, e.state} + e.state.Repr !! {f, f.state} + f.state.Repr
  }
}
