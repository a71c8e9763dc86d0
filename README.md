# Volume operation envelope and timeout classifier

A Dafny model of the operation types used by the Kubernetes volume
controllers (`pkg/volume/util/types/types.go`):

- `GeneratedOperations` bundles an operation (`OperationFunc`, returning an
  event error and a detailed error) with two optional hooks, the event
  recorder and the completion hook. Its `Run` method registers three deferred
  calls (the completion hook if set, the event recorder if set, panic
  recovery), calls the operation once, stores its two results in Run's named
  result slots, and exits by running the deferred calls last-registered-first.
  Each hook is handed a pointer to its own slot, so it sees the final value of
  that slot and may overwrite it.
- `OperationTimedOutError` with `Error()`, `NewOperationTimedOutError` and
  the exact-kind test `IsOperationTimeOutError`.
- The three `OperationStatus` labels and the `VolumeResizerKey` annotation key.

Files:

- `wrappers.dfy`: `Option`, used for Go's nil-able error and func values.
- `errors.dfy` (module `Errors`): the concrete error kinds, the timeout error
  and its classifier, and a reference `CausedByTimeout` test that unwraps, to
  show what the classifier deliberately does not do.
- `status.dfy` (module `Status`): the status labels and the resizer key.
- `operations.dfy` (module `Operations`): `GeneratedOperations`, its `Run`
  method and the lemmas about it.

`Run` is imperative: it builds Go's defer stack as an explicit linked stack
(`DeferStack`, newest call on top), fills the two result slots, and unwinds
the stack in a loop that updates the slots, the panic state and a trace of the
calls made. It is proved equal to `RunResult`, a straight-line definition of
the same exit as an explicit sequence of slot updates (recovery, then the
event recorder, then the completion hook); the lemmas state the envelope's
guarantees about `RunResult`. The loop invariant relates the partly unwound
stack to Go's exit semantics (`Unwind`, `Fire`), and `UnwindRegistered`
computes that semantics for the stack `Run` registers.

Modelling choices:

- Go's `error` is `Option<Error>` (`None` is nil). The dynamic type assertion
  of `IsOperationTimeOutError` is a constructor test on `Error`.
- An operation is a zero-argument function returning an `Outcome`:
  `Returned(eventErr, detailedErr)` or `Panicked(value)`. A hook
  (`func(*error)`) is a function from the slot value it is handed to the value
  it leaves there; the trace records which hook ran and what it saw.
- `runtime.RecoverFromPanic` is modelled only as: if a panic is in progress,
  stop it and store the non-nil error `Recovered(value)` in the detailed slot;
  otherwise leave the slot alone.

Two consequences of Go's `defer`/`recover` semantics:

- A nil `OperationFunc` does not crash `Run`. Calling a nil func value panics
  after the recovery has been deferred, so the panic is recovered into the
  detailed error like any other (`NilOperationFuncIsRecovered`).
- After a panic the event recorder is handed nil, and Run returns what it
  leaves there (nil when there is no recorder). `OperationFunc` cannot write
  Run's named results; only the `return` statement does, and it never
  completes when the operation panics (`PanicIsContained`).

## Model

| member | source | states |
|---|---|---|
| `Operations.GeneratedOperations.Run` | pkg/volume/util/types/types.go:41-52 | For a non-nil receiver and hooks that do not panic, Run never ends in a panic, and unwinding its defer stack gives exactly the reference exit `RunResult`: the returned slots and the trace of calls |
| `Operations.UnwindRegistered` | pkg/volume/util/types/types.go:43-50 | Under Go's last-registered-first exit, the stack Run registers runs recovery first, then the event recorder on the event slot, then the completion hook on the detailed slot, and leaves no panic in progress |
| `Operations.CallsFollowExitOrder` | pkg/volume/util/types/types.go:42-51 | `OperationFunc` is called exactly once and first, recovery always runs next, each hook runs exactly when it is non-nil, and the calls follow the order operation, recovery, event recorder, completion hook |
| `Operations.HooksSeeOperationResults` | pkg/volume/util/types/types.go:42-51 | Without a panic, the event recorder sees the operation's event error and the completion hook its detailed error, and Run returns what the hooks leave in the two slots |
| `Operations.PanicIsContained` | pkg/volume/util/types/types.go:49-51 | After a panic, Run still returns normally, the event recorder is handed nil and Run returns what it leaves there (nil when there is no recorder), and the completion hook sees the non-nil recovered error, which Run returns when there is no completion hook |
| `Operations.NilOperationFuncIsRecovered` | pkg/volume/util/types/types.go:49-51 | A nil `OperationFunc` panics inside Run, and that panic is recovered into the detailed error |
| `Operations.NilHooksCallNothing` | pkg/volume/util/types/types.go:43-48 | With both hooks nil and an operation returning (nil, nil), Run returns (nil, nil) and calls no hook |
| `Operations.IdentityHooksPassThrough` | pkg/volume/util/types/types.go:42-51 | With hooks that leave their slot unchanged, Run returns exactly what `OperationFunc` returned |
| `Operations.HooksWriteOnlyOwnSlot` | pkg/volume/util/types/types.go:43-48 | Each hook is handed and rewrites only its own slot: with hooks modelled as functions of their own slot, replacing the completion hook leaves the returned event error and what the event recorder sees unchanged, and replacing the event recorder leaves the returned detailed error and what the completion hook sees unchanged |
| `Errors.OperationTimedOutError.Error` | pkg/volume/util/types/types.go:76-78 | `Error()` returns the stored message, which determines the timeout error it came from |
| `Errors.IsOperationTimeOutError` | pkg/volume/util/types/types.go:87-94 | A constructor test on `TimedOut`: true for every timeout error, false for nil and for every wrapping error, and a true answer means the error is caused by a timeout |
| `Errors.NewOperationTimedOutError` | pkg/volume/util/types/types.go:71-85 | The new error's `Error()` returns the message unchanged, and the error is classified as a timeout |
| `Errors.TimeoutKindIsExact` | pkg/volume/util/types/types.go:87-94 | `IsOperationTimeOutError` is true exactly for the errors built by `NewOperationTimedOutError` from some message |
| `Errors.ClassifierDoesNotUnwrap` | pkg/volume/util/types/types.go:89-94 | `IsOperationTimeOutError` is false for nil and for every wrapping error, and true only for errors that are caused by a timeout |
| `Errors.WrappedTimeoutIsNotClassified` | pkg/volume/util/types/types.go:89-94 | An error wrapping a timeout error is caused by a timeout yet is not classified as one: the classifier does no unwrapping |
| `Status.StatusLabelsDistinct` | pkg/volume/util/types/types.go:54-69 | The labels "Finished", "InProgress" and "NoChange" are pairwise distinct |

## Left out

- The internals of `runtime.RecoverFromPanic` (stack capture, message text): it is a foreign library call; only its effect on the detailed slot is modelled.
- `panic(nil)`: every panic value in the model is non-nil. Under Go versions before 1.21, `recover()` returns nil for such a panic and the detailed slot would stay unchanged.
- Hooks that themselves panic: hooks are total functions from slot value to slot value. In Go, recovery has already run when the hooks run, so a panic raised by a hook escapes Run (unless `CompleteFunc` recovers it itself).
- What the hooks and the operation do besides their results (event recording, metrics, backoff bookkeeping): they are caller-supplied closures.
- `Error()` of error kinds other than `OperationTimedOutError`: their text comes from code that is not part of this model.
- `IsOperationTimeOutError` on a typed nil `*OperationTimedOutError` (which Go classifies as a timeout): `NewOperationTimedOutError` never returns nil, so no such value is modelled.
- `OperationName` is carried as a field but has no behaviour: Run never reads it.
- `UniquePodName` and `UniquePVCName`: distinct named types over a UID, with no behaviour.
- A nil `*GeneratedOperations` receiver: reading `o.CompleteFunc` then panics before any call is deferred, so that panic escapes Run. The model's `GeneratedOperations` is a value, as at every call site.
- Operations.HooksWriteOnlyOwnSlot: hooks that share captured state (with each other or with `OperationFunc`), or that keep the slot pointer they were handed and write through it later, are not modelled; a hook is a function of its own slot only, so the lemma's independence holds in the model but not for such closures in Go.
- Concurrent callers: Run is synchronous and touches no shared state; isolation between goroutines is not expressible in this sequential model.
- The caller-side status state machine (in progress, then finished or unchanged): it lives outside this file; only the labels are modelled.
