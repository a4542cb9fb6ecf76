/** Failure-carrying values used across the model. */
module Wrappers {

  datatype Option<+T> = None | Some(value: T)

  /** A value, or the error text a Go call returned next to it. */
  datatype Result<+R> = Success(value: R) | Failure(error: string)

  /** The elements an optional value contributes to a log. */
  function ToSeq<T>(o: Option<T>): seq<T> {
    match o
    case None => []
    case Some(v) => [v]
  }
}
