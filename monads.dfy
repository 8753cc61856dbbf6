/**
 * The result algebra shared by the client and the web front end:
 * `Maybe<T>` (present or absent), `Either<L, R>` (failed with L or
 * succeeded with R) and the singleton `Unit` for "succeeded, no payload".
 */
module Monads {

  /** The one value of the unit type (`Unit.Default`). */
  datatype Unit = Unit

  datatype Maybe<+T> = None | Some(value: T) {

    /** The present value as a sequence of length at most one. */
    function ToSeq(): (s: seq<T>)
      ensures |s| <= 1
      ensures Some? <==> |s| == 1
      ensures Some? ==> s[0] == value
    {
      match this
      case None => []
      case Some(v) => [v]
    }
  }

  datatype Either<+L, +R> = Left(left: L) | Right(right: R)
}
