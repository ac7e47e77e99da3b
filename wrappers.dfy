/** Failure-carrying datatypes shared by the models: a missing value, a value
    or an error, and a success-or-error outcome (a C# exception becomes the
    error case). */
module Wrappers {

  datatype Option<+T> = None | Some(value: T) {
    /** The value when present, `default` otherwise (C# `TryGet` with a fallback). */
    function GetOr(default: T): T {
      match this
      case Some(v) => v
      case None => default
    }

    /** The empty sequence or the one-element sequence holding the value. */
    function ToSeq(): (s: seq<T>)
      ensures |s| <= 1
      ensures Some? <==> |s| == 1
      ensures Some? ==> s[0] == value
    {
      match this
      case Some(v) => [v]
      case None => []
    }
  }

  datatype Result<+T, +E> = Ok(value: T) | Err(error: E)

  datatype Outcome<+E> = Pass | Fail(error: E)
}
