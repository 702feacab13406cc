/** A value that may be absent. */
module Wrappers {

  datatype Option<+T> = None | Some(value: T)

  /** The value in `o`, or `default` when there is none (`Option::unwrap_or`). */
  function GetOr<T>(o: Option<T>, default: T): T {
    match o
    case Some(v) => v
    case None => default
  }
}
