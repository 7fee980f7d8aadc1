/** Option and Result, used wherever the source returns None or raises. */
module Wrappers {
  datatype Option<T> = None | Some(value: T)
  {
    predicate IsSome() { this.Some? }

    function GetOr(default: T): T
    {
      match this
      case None => default
      case Some(v) => v
    }
  }

  /** A Python call that either returns a value or raises an exception with a message. */
  datatype Result<T> = Ok(value: T) | Err(error: string)
}
