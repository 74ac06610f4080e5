/** Results of calls that can fail. The operator is written in Go, where every call returns an error value. */
module Wrappers {

  import opened Names

  datatype Option<+T> = None | Some(value: T)

  /** Why a call or a reconcile stopped. `Fault` is an API server or transport failure with no effect on the cluster. */
  datatype Error =
    | Fault
    | NotFound
    | AlreadyExists
    | Conflict
    | Invalid
    | NotBound
    | SecretMissing
    | NoSelector
    | BadInterval
    | WaitingForTermination
    | StillInUse(name: Name)
    | WaitingForDeletion(name: Name)
    | LostClaim(name: Name)
    | FinalSyncInProgress
  {
    /** Comes from a call to the API server, or from something that is missing. */
    predicate OfCall() {
      Fault? || NotFound? || AlreadyExists? || Conflict? || Invalid? || NotBound? || SecretMissing?
    }
  }

  datatype Result<+T> = Success(value: T) | Failure(error: Error) {
    predicate IsFailure() { Failure? }
    function PropagateFailure<U>(): Result<U> requires Failure? { Failure(error) }
    function Extract(): T requires Success? { value }
  }

  /** A call without a value. */
  type Outcome = Result<()>
  const OK: Outcome := Success(())

  /** When a reconcile that ended without an error is run again. */
  datatype Requeue = WhenSomethingChanges | AtOnce | After(seconds: nat)

  const REQUEUE_INTERVAL := 30
  const WAITING_INTERVAL := 10
}
