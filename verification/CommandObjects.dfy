/** Commands as the objects the workflow state holds; their methods change the state in place (internal/command). */
module CommandObjects {
  import opened Basics
  import opened History
  import opened Commands

  class CommandObject {
    const id: nat
    var action: Action
    var state: CommandState
    var armed: bool

    function Value(): Command
      reads this
    {
      Command(id, action, state, armed)
    }

    constructor (id: nat, action: Action, armed: bool)
      ensures Value() == Command(id, action, Pending, armed)
    {
      this.id, this.action, this.state, this.armed := id, action, Pending, armed;
    }

    /** `ok` is false for the panic on an invalid transition, here and below. */
    method Commit() returns (ok: bool)
      modifies this`state
      ensures ok <==> old(Value()).Commit().Some?
      ensures ok <==> old(state) == Pending
      ensures state == if !ok then old(state) else if action.Complete? then CommandState.Done else Committed
      ensures Value() == if ok then old(Value()).Commit().value else old(Value())
    {
      if state != Pending {
        return false;
      }
      state := if action.Complete? then CommandState.Done else Committed;
      return true;
    }

    method Done() returns (ok: bool)
      modifies this`state, this`armed
      ensures ok <==> old(Value()).Settle().Some?
      ensures ok <==> old(state) == Committed || (old(state) == Canceled && (action.Timer? || action.SubWorkflow?))
      ensures if ok then state == CommandState.Done && !armed else state == old(state) && armed == old(armed)
      ensures Value() == if ok then old(Value()).Settle().value else old(Value())
    {
      if state == Committed || ((action.Timer? || action.SubWorkflow?) && state == Canceled) {
        state, armed := CommandState.Done, false;
        return true;
      }
      return false;
    }

    method Cancel() returns (ok: bool)
      modifies this`state
      ensures ok <==> old(Value()).Cancel().Some?
      ensures ok <==> old(state) == Pending || old(state) == Canceled || old(state) == Committed
      ensures state == if !ok then old(state) else if old(state) == Committed then CancelPending else Canceled
      ensures Value() == if ok then old(Value()).Cancel().value else old(Value())
    {
      match state {
        case Pending | Canceled =>
          state := Canceled;
          return true;
        case Committed =>
          state := CancelPending;
          return true;
        case _ =>
          return false;
      }
    }

    method HandleCancel() returns (ok: bool)
      modifies this`state
      ensures ok <==> old(Value()).HandleCancel().Some?
      ensures ok <==> old(state) == CancelPending
      ensures state == if ok then Canceled else old(state)
      ensures Value() == if ok then old(Value()).HandleCancel().value else old(Value())
    {
      if state == CancelPending {
        state := Canceled;
        return true;
      }
      return false;
    }

    /** Turns the command into events and moves it on; done commands yield nothing. */
    method Execute(now: Time, source: nat) returns (r: CommandResult)
      modifies this`state
      ensures r == old(Value()).Execute(now, source) && Value() == old(Value()).Executed()
      ensures Yields(old(Value()), now, source, r) && MovesOn(old(Value()), Value())
    {
      r := NoResult;
      match state {
        case Pending =>
          state := if action.Complete? then CommandState.Done else Committed;
          r := Scheduled(now, source);
        case CancelPending =>
          if action.Timer? {
            state := Canceled;
            r := r.(events := [Value().OwnEvent(now, source, TimerCanceled)]);
          } else if action.SubWorkflow? {
            state := Canceled;
            r := r.(events := [Value().OwnEvent(now, source, SubWorkflowCancellationRequested(action.instance))],
                    workflowEvents := [WorkflowEvent(action.instance, Value().Message(now, source, 0, ExecutionCanceled))]);
          }
        case _ =>
      }
    }

    /**
      What a command yields that is executed for the first time: one event of its own, an activity to run for an
      activity, a firing due later for a timer, and a message for whoever starts or waits.
     */
    method Scheduled(now: Time, source: nat) returns (r: CommandResult)
      ensures r == Value().(state := Pending).Execute(now, source)
      ensures Yields(Value().(state := Pending), now, source, r)
    {
      r := NoResult;
      match action {
        case Activity(name, inputs, attempt, queue) =>
          var event := Value().OwnEvent(now, source, ActivityScheduled(queue, name, inputs, attempt));
          r := r.(events := [event], activityEvents := [event]);
        case Timer(at, name) =>
          var fired := Value().Message(now, source, id, TimerFired(now, at, name));
          r := r.(events := [Value().OwnEvent(now, source, TimerScheduled(at, name))], timerEvents := [fired.(visibleAt := Some(at))]);
        case SubWorkflow(queue, instance, name, inputs) =>
          r := r.(events := [Value().OwnEvent(now, source, SubWorkflowScheduled(instance, name, inputs))],
                  workflowEvents := [WorkflowEvent(instance, Value().Message(now, source, 0, ExecutionStarted(queue, name, inputs)))]);
        case Complete(instance, result, error) =>
          r := r.(state := Finished,
                  events := [NewPendingEvent(Drawn(source, ForEvent, id), now, 0, ExecutionFinished(result, error))]);
          if instance.SubWorkflow() {
            // Tell the parent
            var outcome := if error.Some? then SubWorkflowFailed(error.value) else SubWorkflowCompleted(result);
            var message := Value().Message(now, source, instance.parentEventID, outcome);
            r := r.(workflowEvents := [WorkflowEvent(instance.parent.value, message)]);
          }
        case ContinueAsNew(instance, name, inputs, result, continuedExecutionID) =>
          var continued := Continued(instance, continuedExecutionID);
          r := r.(state := InstanceState.ContinuedAsNew,
                  events := [NewPendingEvent(Drawn(source, ForEvent, id), now, 0,
                                             ExecutionContinuedAsNew(result, continuedExecutionID))],
                  workflowEvents := [WorkflowEvent(continued, Value().Message(now, source, 0, ExecutionStarted("", name, inputs)))]);
      }
    }
  }
}
