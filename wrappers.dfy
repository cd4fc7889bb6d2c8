/** Stock failure-carrying datatypes used throughout the model. */
module Wrappers {

  /** A value that may be absent: how the model renders a JSON key that the
      transformer tests for with `in`, and an optional protobuf field. */
  datatype Option<+T> = None | Some(value: T) {
    function GetOr(default: T): T {
      if Some? then value else default
    }
  }

  /** The outcome of a step that can fail with an error of type E. */
  datatype Result<+T, +E> = Ok(value: T) | Err(error: E)

  /** The list stored under an optional key, or the empty list when the key is absent. */
  function OrEmpty<T>(o: Option<seq<T>>): seq<T> {
    match o
    case None => []
    case Some(s) => s
  }
}
