/**
 * `GeneratedOperations` and its `Run` method: an operation run once inside a
 * fixed envelope of deferred calls (panic recovery, then the event recorder,
 * then the completion hook), reporting through two error slots.
 */
module Operations {
  import opened Wrappers
  import opened Errors

  /** How a call of `OperationFunc` (or of `Run` itself) ends: a normal return or a panic. */
  datatype Outcome =
    | Returned(eventErr: Option<Error>, detailedErr: Option<Error>)
    | Panicked(value: PanicValue)

  /**
   * A hook of type `func(*error)`: it is handed a pointer to one result slot, and
   * may read it and overwrite it. Modelled by the value it leaves in the slot;
   * its other effects (events, metrics) are not part of the model.
   */
  type Hook = Option<Error> -> Option<Error>

  /** One call made while `Run` executes, with the slot value a hook was handed. */
  datatype Step =
    | OperationFuncCalled
    | RecoverFromPanicCalled
    | EventRecorderCalled(seen: Option<Error>)
    | CompleteCalled(seen: Option<Error>)
  {
    /** The place of this kind of call in the fixed exit order. */
    function Position(): nat {
      match this
      case OperationFuncCalled => 0
      case RecoverFromPanicCalled => 1
      case EventRecorderCalled(_) => 2
      case CompleteCalled(_) => 3
    }
  }

  /** Every call comes later in the fixed order than the calls before it (so each kind runs at most once). */
  predicate ExitOrdered(trace: seq<Step>) {
    forall i, j :: 0 <= i < j < |trace| ==> trace[i].Position() < trace[j].Position()
  }

  predicate EventRecorderRan(trace: seq<Step>) {
    exists i :: 0 <= i < |trace| && trace[i].EventRecorderCalled?
  }

  predicate CompleteRan(trace: seq<Step>) {
    exists i :: 0 <= i < |trace| && trace[i].CompleteCalled?
  }

  /** What `Run` produces: how it ended and the calls it made, in order. */
  datatype Execution = Execution(outcome: Outcome, trace: seq<Step>)

  /** The value a hook leaves in its slot; a nil hook is not called and leaves the slot alone. */
  function ApplyHook(hook: Option<Hook>, slot: Option<Error>): Option<Error> {
    if hook.Some? then hook.value(slot) else slot
  }

  /** A call registered with Go's `defer`, holding the hook value captured at the `defer` statement. */
  datatype Deferred =
    | DeferComplete(complete: Hook)
    | DeferEventRecorder(recorder: Hook)
    | DeferRecoverFromPanic

  /** The state of `Run`'s frame while its deferred calls unwind. */
  datatype Frame = Frame(eventErr: Option<Error>, detailedErr: Option<Error>,
                         panicking: Option<PanicValue>, trace: seq<Step>)

  /** Go's semantics of one deferred call on the frame. */
  ghost function Fire(d: Deferred, f: Frame): Frame {
    match d
    case DeferRecoverFromPanic =>
      // recover() stops the panic; a recovered value becomes the detailed error
      f.(detailedErr := if f.panicking.Some? then Some(Recovered(f.panicking.value)) else f.detailedErr,
         panicking := None,
         trace := f.trace + [RecoverFromPanicCalled])
    case DeferEventRecorder(h) =>
      f.(eventErr := h(f.eventErr), trace := f.trace + [EventRecorderCalled(f.eventErr)])
    case DeferComplete(h) =>
      f.(detailedErr := h(f.detailedErr), trace := f.trace + [CompleteCalled(f.detailedErr)])
  }

  /** The defer stack of a Go function: the most recently registered call is on top. */
  datatype DeferStack = Empty | Push(top: Deferred, rest: DeferStack)

  /** Go's semantics of function exit: deferred calls run last-registered-first. */
  ghost function Unwind(stack: DeferStack, f: Frame): Frame {
    match stack
    case Empty => f
    case Push(d, rest) => Unwind(rest, Fire(d, f))
  }

  datatype GeneratedOperations = GeneratedOperations(
    operationName: string,                    // carried for the caller; Run never reads it
    operationFunc: Option<() -> Outcome>,
    eventRecorderFunc: Option<Hook>,
    completeFunc: Option<Hook>)
  {
    /** The one call of `OperationFunc`; calling a nil func value panics. */
    function Call(): Outcome {
      match operationFunc
      case None => Panicked(NilFunctionCall)
      case Some(f) => f()
    }

    /** The defer stack as Run leaves it before calling `OperationFunc`. */
    ghost function Registered(): DeferStack {
      var completes := if completeFunc.Some? then Push(DeferComplete(completeFunc.value), Empty) else Empty;
      var recorders := if eventRecorderFunc.Some? then Push(DeferEventRecorder(eventRecorderFunc.value), completes) else completes;
      Push(DeferRecoverFromPanic, recorders)
    }

    /**
     * Reference definition of `Run` as an explicit sequence of slot updates:
     * the results of the call fill the slots (nil for both after a panic),
     * recovery turns a panic into the detailed error, then the event recorder
     * rewrites the event slot and the completion hook the detailed slot.
     */
    function RunResult(): Execution {
      var result := Call();
      var eventSlot := if result.Returned? then result.eventErr else None;
      var detailedSlot := if result.Returned? then result.detailedErr else Some(Recovered(result.value));
      Execution(
        Returned(ApplyHook(eventRecorderFunc, eventSlot), ApplyHook(completeFunc, detailedSlot)),
        [OperationFuncCalled, RecoverFromPanicCalled]
        + (if eventRecorderFunc.Some? then [EventRecorderCalled(eventSlot)] else [])
        + (if completeFunc.Some? then [CompleteCalled(detailedSlot)] else []))
    }

    /**
     * `Run`: register the deferred calls, call `OperationFunc` once, store its
     * results in the named result slots, then unwind the defer stack.
     */
    method Run() returns (outcome: Outcome, trace: seq<Step>)
      ensures outcome.Returned?
      ensures Execution(outcome, trace) == RunResult()
    {
      var defers := Empty;
      if completeFunc.Some? {
        defers := Push(DeferComplete(completeFunc.value), defers);
      }
      if eventRecorderFunc.Some? {
        defers := Push(DeferEventRecorder(eventRecorderFunc.value), defers);
      }
      defers := Push(DeferRecoverFromPanic, defers);

      // the named results start at their zero value, nil
      var eventErr: Option<Error> := None;
      var detailedErr: Option<Error> := None;
      var panicking: Option<PanicValue> := None;
      trace := [OperationFuncCalled];
      var result := Call();
      match result {
        case Returned(e, d) =>
          eventErr, detailedErr := e, d;
        case Panicked(v) =>
          panicking := Some(v);
      }

      ghost var start := Frame(eventErr, detailedErr, panicking, trace);
      assert defers == Registered();
      while defers.Push?
        invariant Unwind(defers, Frame(eventErr, detailedErr, panicking, trace)) == Unwind(Registered(), start)
        decreases defers
      {
        var d := defers.top;
        defers := defers.rest;
        match d {
          case DeferRecoverFromPanic =>
            if panicking.Some? {
              detailedErr := Some(Recovered(panicking.value));
            }
            panicking := None;
            trace := trace + [RecoverFromPanicCalled];
          case DeferEventRecorder(h) =>
            trace := trace + [EventRecorderCalled(eventErr)];
            eventErr := h(eventErr);
          case DeferComplete(h) =>
            trace := trace + [CompleteCalled(detailedErr)];
            detailedErr := h(detailedErr);
        }
      }
      UnwindRegistered(this, start);
      // a panic that no deferred call recovered would leave Run still panicking
      outcome := match panicking
        case None => Returned(eventErr, detailedErr)
        case Some(v) => Panicked(v);
    }
  }

  /**
   * Unwinding the registered stack: recovery first, then the event recorder on
   * the event slot, then the completion hook on the detailed slot.
   */
  lemma UnwindRegistered(o: GeneratedOperations, start: Frame)
    ensures var recovered := Fire(DeferRecoverFromPanic, start);
            Unwind(o.Registered(), start) ==
              Frame(ApplyHook(o.eventRecorderFunc, recovered.eventErr),
                    ApplyHook(o.completeFunc, recovered.detailedErr),
                    None,
                    recovered.trace
                    + (if o.eventRecorderFunc.Some? then [EventRecorderCalled(recovered.eventErr)] else [])
                    + (if o.completeFunc.Some? then [CompleteCalled(recovered.detailedErr)] else []))
  {
    var recovered := Fire(DeferRecoverFromPanic, start);
    var completes := if o.completeFunc.Some? then Push(DeferComplete(o.completeFunc.value), Empty) else Empty;
    var recorded := if o.eventRecorderFunc.Some? then Fire(DeferEventRecorder(o.eventRecorderFunc.value), recovered) else recovered;
    assert Unwind(o.Registered(), start) == Unwind(completes, recorded);
  }

  /**
   * `OperationFunc` is called exactly once and before anything else; recovery
   * always runs next; each hook runs exactly when it is non-nil; and the calls
   * follow the fixed exit order.
   */
  lemma CallsFollowExitOrder(o: GeneratedOperations)
    ensures var t := o.RunResult().trace;
            && |t| >= 2 && t[0] == OperationFuncCalled && t[1] == RecoverFromPanicCalled
            && ExitOrdered(t)
            && (EventRecorderRan(t) <==> o.eventRecorderFunc.Some?)
            && (CompleteRan(t) <==> o.completeFunc.Some?)
  {
    var t := o.RunResult().trace;
    if o.eventRecorderFunc.Some? {
      assert t[2].EventRecorderCalled?;
    }
    if o.completeFunc.Some? {
      assert t[|t| - 1].CompleteCalled?;
    }
  }

  /**
   * Without a panic the hooks see what `OperationFunc` returned, not the zero
   * values, and Run returns what the hooks leave in the slots.
   */
  lemma HooksSeeOperationResults(o: GeneratedOperations)
    requires o.Call().Returned?
    ensures var r := o.RunResult();
            && (o.eventRecorderFunc.Some? ==> EventRecorderCalled(o.Call().eventErr) in r.trace)
            && (o.completeFunc.Some? ==> CompleteCalled(o.Call().detailedErr) in r.trace)
            && r.outcome == Returned(ApplyHook(o.eventRecorderFunc, o.Call().eventErr),
                                     ApplyHook(o.completeFunc, o.Call().detailedErr))
  {
  }

  /**
   * A panic in `OperationFunc` does not escape: the event slot keeps its zero
   * value, nil, and the detailed slot holds the recovered panic before the
   * completion hook sees it.
   */
  lemma PanicIsContained(o: GeneratedOperations)
    requires o.Call().Panicked?
    ensures var r := o.RunResult();
            var recovered := Some(Recovered(o.Call().value));
            && r.outcome.Returned?
            && r.outcome.eventErr == ApplyHook(o.eventRecorderFunc, None)
            && (o.eventRecorderFunc.Some? ==> EventRecorderCalled(None) in r.trace)
            && (o.completeFunc.Some? ==> CompleteCalled(recovered) in r.trace)
            && (o.completeFunc.None? ==> r.outcome.detailedErr == recovered)
  {
  }

  /** A nil `OperationFunc` panics inside Run, and that panic is recovered like any other. */
  lemma NilOperationFuncIsRecovered(o: GeneratedOperations)
    requires o.operationFunc.None?
    ensures var r := o.RunResult();
            && r.outcome.Returned?
            && (o.completeFunc.Some? ==> CompleteCalled(Some(Recovered(NilFunctionCall))) in r.trace)
            && (o.completeFunc.None? ==> r.outcome.detailedErr == Some(Recovered(NilFunctionCall)))
  {
  }

  /** With both hooks nil and an operation returning (nil, nil), Run returns (nil, nil) and calls no hook. */
  lemma NilHooksCallNothing(o: GeneratedOperations)
    requires o.eventRecorderFunc.None? && o.completeFunc.None?
    requires o.Call() == Returned(None, None)
    ensures o.RunResult() == Execution(Returned(None, None), [OperationFuncCalled, RecoverFromPanicCalled])
    ensures !EventRecorderRan(o.RunResult().trace) && !CompleteRan(o.RunResult().trace)
  {
  }

  /** With hooks that leave their slot alone, Run returns exactly what `OperationFunc` returned. */
  lemma IdentityHooksPassThrough(o: GeneratedOperations)
    requires o.Call().Returned?
    requires o.eventRecorderFunc.Some? ==> forall s :: o.eventRecorderFunc.value(s) == s
    requires o.completeFunc.Some? ==> forall s :: o.completeFunc.value(s) == s
    ensures o.RunResult().outcome == o.Call()
  {
  }

  /**
   * A hook writes only its own slot: replacing the completion hook changes
   * neither the returned event error nor what the event recorder sees, and
   * replacing the event recorder changes neither the returned detailed error
   * nor what the completion hook sees.
   */
  lemma HooksWriteOnlyOwnSlot(o: GeneratedOperations, h: Option<Hook>)
    ensures o.(completeFunc := h).RunResult().outcome.eventErr == o.RunResult().outcome.eventErr
    ensures o.(eventRecorderFunc := h).RunResult().outcome.detailedErr == o.RunResult().outcome.detailedErr
    ensures forall e :: EventRecorderCalled(e) in o.RunResult().trace <==>
                        EventRecorderCalled(e) in o.(completeFunc := h).RunResult().trace
    ensures forall d :: CompleteCalled(d) in o.RunResult().trace <==>
                        CompleteCalled(d) in o.(eventRecorderFunc := h).RunResult().trace
  {
  }
}
