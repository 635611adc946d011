/** Optional values and error-carrying results used across the model. */
module Wrappers {

  /** A JavaScript value that may be null or undefined. */
  datatype Option<+T> = None | Some(value: T)

  /** The outcome of an operation that may fail with an error the caller sees. */
  datatype Result<+R, +E> = Ok(value: R) | Err(error: E)

  /** `o ?? fallback`, and SQL's COALESCE(o, fallback). */
  function Coalesce<T>(o: Option<T>, fallback: T): T
  {
    match o
    case Some(v) => v
    case None => fallback
  }
}
