/** The status labels callers attach to their own operation bookkeeping, and the resizer key. */
module Status {

  /**
   * `OperationStatus` is a distinct named Go type over string; here it is a
   * synonym of `string`, so the model does not keep Go's separation between
   * status labels and other strings. Its values are plain labels.
   */
  type OperationStatus = string

  /** The volume operation has finished. */
  const OperationFinished: OperationStatus := "Finished"

  /** The volume operation has started; nothing is known yet about success or failure. */
  const OperationInProgress: OperationStatus := "InProgress"

  /** Unchanged from the previous state, e.g. a transient failure of an in-progress operation. */
  const OperationStateNoChange: OperationStatus := "NoChange"

  /** The annotation key under which the resizer used for a claim is recorded. */
  const VolumeResizerKey: string := "volume.kubernetes.io/storage-resizer"

  /** The three labels are pairwise distinct, so a caller can tell the states apart. */
  lemma StatusLabelsDistinct()
    ensures OperationFinished != OperationInProgress
    ensures OperationFinished != OperationStateNoChange
    ensures OperationInProgress != OperationStateNoChange
  {
  }
}
