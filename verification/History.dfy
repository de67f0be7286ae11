/** Workflow instances and history events (core/instance.go, backend/history). */
module History {
  import opened Basics

  type Time = int
  type Payload = string
  type Queue = string

  datatype Error =
    | ContextCanceled
    | InstanceAlreadyExists
    | NoPendingFuture
    | DecodingFailed
    | CommandNotFound
    | UnexpectedCommand
    | WorkflowNotFound
    | UnknownEventType
    | FuturesStillPending
    | HistorySizeExceeded
    | OlderHistory
    | HistoryMismatch
    | UserError(text: string)

  datatype Instance =
    Instance(instanceID: Name, executionID: Name, parent: Option<Instance>, parentEventID: int)
  {
    predicate SubWorkflow() {
      parent.Some?
    }
  }

  datatype InstanceState = Active | ContinuedAsNew | Finished
  {
    /** The numeric value of the state, which ExecuteTask compares. */
    function Rank(): nat {
      match this
      case Active => 0
      case ContinuedAsNew => 1
      case Finished => 2
    }
  }

  /** Event type and type specific attributes. */
  datatype Attributes =
    | ExecutionStarted(queue: Queue, name: string, inputs: seq<Payload>)
    | ExecutionFinished(result: Payload, error: Option<Error>)
    | ExecutionContinuedAsNew(result: Payload, continuedExecutionID: Name)
    | ExecutionTerminated
    | ExecutionCanceled
    | TaskStarted
    | SubWorkflowScheduled(instance: Instance, name: string, inputs: seq<Payload>)
    | SubWorkflowCancellationRequested(instance: Instance)
    | SubWorkflowCompleted(result: Payload)
    | SubWorkflowFailed(reason: Error)
    | ActivityScheduled(queue: Queue, name: string, inputs: seq<Payload>, attempt: int)
    | ActivityCompleted(result: Payload)
    | ActivityFailed(reason: Error)
    | TimerScheduled(at: Time, name: string)
    | TimerFired(scheduledAt: Time, at: Time, name: string)
    | TimerCanceled
    | SignalReceived(name: string, arg: Payload)

  datatype Event = Event(
    id: Name,
    sequenceID: int,
    timestamp: Time,
    scheduleEventID: int,
    attributes: Attributes,
    visibleAt: Option<Time>)

  /** An event addressed to a workflow instance. */
  datatype WorkflowEvent = WorkflowEvent(instance: Instance, event: Event)

  /** A new event; its sequence id is only set once it enters the history. */
  function NewPendingEvent(id: Name, now: Time, scheduleEventID: int, attributes: Attributes): Event {
    Event(id, 0, now, scheduleEventID, attributes, None)
  }

  /** The events with consecutive sequence ids following `last`. */
  function Number(events: seq<Event>, last: int): (numbered: seq<Event>)
    ensures |numbered| == |events|
    ensures forall i :: 0 <= i < |events| ==> numbered[i] == events[i].(sequenceID := last + i + 1)
  {
    seq(|events|, i requires 0 <= i < |events| => events[i].(sequenceID := last + i + 1))
  }

  /** Sequence ids run on from `last` without gap or duplicate. */
  predicate NumberedFrom(events: seq<Event>, last: int) {
    forall i :: 0 <= i < |events| ==> events[i].sequenceID == last + i + 1
  }

  predicate IsScheduled(a: Attributes) {
    a.ActivityScheduled? || a.TimerScheduled? || a.SubWorkflowScheduled?
  }

  predicate IsResult(a: Attributes) {
    a.ActivityCompleted? || a.ActivityFailed? || a.SubWorkflowCompleted? || a.SubWorkflowFailed?
  }

  predicate IsTerminal(a: Attributes) {
    a.ExecutionFinished? || a.ExecutionContinuedAsNew?
  }

  predicate DistinctIds(events: seq<Event>) {
    forall i, j :: 0 <= i < j < |events| ==> events[i].id != events[j].id
  }

  function EventsOf(group: seq<WorkflowEvent>): (events: seq<Event>)
    ensures |events| == |group|
    ensures forall i :: 0 <= i < |group| ==> events[i] == group[i].event
  {
    seq(|group|, i requires 0 <= i < |group| => group[i].event)
  }

  lemma DistinctSplit(a: seq<Event>, b: seq<Event>)
    ensures DistinctIds(a + b) <==>
            DistinctIds(a) && DistinctIds(b) && forall e, f :: e in a && f in b ==> e.id != f.id
  {
    if DistinctIds(a + b) {
      forall i, j | 0 <= i < j < |a|
        ensures a[i].id != a[j].id
      {
        assert (a + b)[i] == a[i] && (a + b)[j] == a[j];
      }
      forall i, j | 0 <= i < j < |b|
        ensures b[i].id != b[j].id
      {
        assert (a + b)[|a| + i] == b[i] && (a + b)[|a| + j] == b[j];
      }
      forall e, f | e in a && f in b
        ensures e.id != f.id
      {
        var i :| 0 <= i < |a| && a[i] == e;
        var j :| 0 <= j < |b| && b[j] == f;
        assert (a + b)[i] == e && (a + b)[|a| + j] == f;
      }
    }
  }
}
