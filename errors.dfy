/**
 * The error taxonomy of the volume operation types: the timeout error with its
 * exact-kind classifier, and the other concrete error kinds an operation can
 * produce. Go's `error` interface is `Option<Error>` (None is nil); the concrete
 * type behind an interface value is the constructor of `Error`.
 */
module Errors {
  import opened Wrappers

  /** The non-nil value handed to Go's `panic`. */
  datatype PanicValue =
    | NilFunctionCall          // the runtime panic raised by calling a nil func value
    | PanicWith(payload: string)

  /** `*OperationTimedOutError`: a timeout seen by the client; the work may still be running. */
  datatype OperationTimedOutError = OperationTimedOutError(msg: string) {

    /** The `Error()` method of the error interface: the message, which determines the error. */
    function Error(): (s: string)
      ensures this == OperationTimedOutError(s)
    {
      msg
    }
  }

  /** The concrete kinds of a non-nil `error`. */
  datatype Error =
    | TimedOut(timeout: OperationTimedOutError)
      // what runtime.RecoverFromPanic stores after recovering `panicValue`
    | Recovered(panicValue: PanicValue)
      // an error that carries another one as its cause (as `fmt.Errorf("%w")` does)
    | Wrapped(context: string, inner: Error)
    | Other(text: string)

  /** `NewOperationTimedOutError`: always succeeds; its message is kept verbatim. */
  function NewOperationTimedOutError(msg: string): (r: OperationTimedOutError)
    ensures r.Error() == msg
    ensures IsOperationTimeOutError(Some(TimedOut(r)))
  {
    OperationTimedOutError(msg)
  }

  /**
   * `IsOperationTimeOutError`: a type assertion on the concrete kind, so nil
   * and every other kind, including a wrapper around a timeout, give false.
   */
  function IsOperationTimeOutError(err: Option<Error>): (b: bool)
    ensures err.Some? && err.value.TimedOut? ==> b
    ensures b ==> err.Some? && CausedByTimeout(err.value)
    ensures err.Some? && err.value.Wrapped? ==> !b
  {
    match err
    case Some(TimedOut(_)) => true
    case _ => false
  }

  /** Reference "caused by a timeout" test that does unwrap, for comparison. */
  predicate CausedByTimeout(err: Error) {
    match err
    case TimedOut(_) => true
    case Wrapped(_, inner) => CausedByTimeout(inner)
    case _ => false
  }

  /** The classifier is true exactly for the errors built by NewOperationTimedOutError. */
  lemma TimeoutKindIsExact(err: Option<Error>)
    ensures IsOperationTimeOutError(err) <==>
            exists m: string :: err == Some(TimedOut(NewOperationTimedOutError(m)))
  {
    if IsOperationTimeOutError(err) {
      var m := err.value.timeout.msg;
      assert err == Some(TimedOut(NewOperationTimedOutError(m)));
    }
  }

  /** nil is not a timeout, and no wrapper is, however deep the timeout it carries. */
  lemma ClassifierDoesNotUnwrap(err: Option<Error>)
    ensures err.None? ==> !IsOperationTimeOutError(err)
    ensures err.Some? && err.value.Wrapped? ==> !IsOperationTimeOutError(err)
    ensures IsOperationTimeOutError(err) ==> CausedByTimeout(err.value)
  {
  }

  /** A wrapped timeout error is caused by a timeout, yet the classifier says false for it. */
  lemma WrappedTimeoutIsNotClassified(context: string, m: string)
    ensures CausedByTimeout(Wrapped(context, TimedOut(NewOperationTimedOutError(m))))
    ensures !IsOperationTimeOutError(Some(Wrapped(context, TimedOut(NewOperationTimedOutError(m)))))
  {
  }
}
