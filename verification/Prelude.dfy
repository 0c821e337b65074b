/** Optional values and the outcome of operations that can fail. */
module Prelude {

  datatype Option<+T> = None | Some(value: T)

  /** The error codes raised by the modelled operations. */
  datatype ErrorCode =
    | InvalidArguments
    | InvalidStateTransition
    | ConfigInvalid
    | InstallFailed
    | ApprovalInvalid
    | ArtifactInvalid
    | SandboxUnavailable
    | ExecutionFailed
    | RunTimedOut
    | RunCancelled
    | Io
    | Internal

  datatype Result<+T> = Ok(value: T) | Err(code: ErrorCode)
  {
    predicate IsFailure() {
      Err?
    }

    function PropagateFailure<U>(): Result<U>
      requires Err?
    {
      Err(code)
    }

    function Extract(): T
      requires Ok?
    {
      value
    }
  }
}
