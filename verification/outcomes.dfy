/** Failure-carrying results shared by the validators and the engines. */
module Outcomes {

  /** A value that may be absent. */
  datatype Option<+T> = None | Some(value: T)

  /** `Result<T, E>`: a value or an error. */
  datatype Result<+T, +E> = Success(value: T) | Failure(error: E)

  /** `Result<(), E>`: either nothing went wrong or an error. */
  datatype Outcome<+E> = Pass | Fail(error: E)

  /** Forgets the value of a result, keeping only whether (and why) it failed. */
  function ToOutcome<T, E>(r: Result<T, E>): (o: Outcome<E>)
    ensures o.Pass? <==> r.Success?
    ensures o.Fail? ==> o.error == r.error
  {
    match r
    case Success(_) => Pass
    case Failure(e) => Fail(e)
  }
}
