/** Optional values and the outcome of a remote call.

    Kotlin's nullable types become `Option`, and `kotlin.Result` becomes
    `Result`: a success carries the value, a failure carries the message of
    the exception that was caught, which Kotlin's `Throwable.message` allows
    to be absent. */
module Wrappers {

  datatype Option<+T> = None | Some(value: T) {

    /** The value, or `default` when absent (Kotlin's `?:`). */
    function GetOr(default: T): (r: T)
      ensures Some? ==> r == value
      ensures None? ==> r == default
    {
      match this
      case Some(v) => v
      case None => default
    }
  }

  datatype Result<+T> = Success(value: T) | Failure(message: Option<string>) {

    /** Applies `f` to a success and passes a failure through untouched. */
    function Map<U>(f: T -> U): (r: Result<U>)
      ensures r.Success? <==> Success?
      ensures Success? ==> r.value == f(value)
      ensures Failure? ==> r == Failure(message)
    {
      match this
      case Success(v) => Success(f(v))
      case Failure(m) => Failure(m)
    }

    /** The text a view model shows for a failure: the exception's message,
        or its own fixed fallback when the exception carries none. */
    function MessageOr(default: string): (r: string)
      requires Failure?
      ensures message.Some? ==> r == message.value
      ensures message.None? ==> r == default
    {
      message.GetOr(default)
    }
  }
}
