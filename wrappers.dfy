/** Small failure-carrying datatypes shared by the modules of the model. */
module Wrappers {

  /** A value that may be absent: a missing dictionary key, a `None` argument. */
  datatype Option<+T> = None | Some(value: T) {

    /** The value held, or `default` when there is none (Python's `d.get(k, default)`). */
    function GetOr(default: T): T {
      match this
      case Some(v) => v
      case None => default
    }

    /** The value held as a one-element sequence, or the empty sequence. */
    function ToSeq(): (s: seq<T>)
      ensures |s| <= 1 && (Some? <==> |s| == 1) && (Some? ==> s[0] == value)
    {
      if Some? then [value] else []
    }
  }

  /** The outcome of a computation that may fail with an error message. */
  datatype Result<+R> = Success(value: R) | Failure(error: string)

  /** What an HTTP handler answers: a body, or an error message with its status code. */
  datatype Reply<+T> = Ok(body: T) | Err(code: int, message: string)
}
