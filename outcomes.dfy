/** Option and Result, the two failure-carrying wrappers the model uses. */
module Outcomes {

  datatype Option<+T> = None | Some(value: T)

  datatype Result<+T, +E> = Success(value: T) | Failure(error: E)

  /** The error of a Result, or None when it succeeded */
  function ErrorOf<T, E>(r: Result<T, E>): (e: Option<E>)
    ensures e.None? <==> r.Success?
    ensures r.Failure? ==> e == Some(r.error)
  {
    match r
    case Success(_) => None
    case Failure(err) => Some(err)
  }
}
