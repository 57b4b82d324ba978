/** Optional values and the three-state outcome every repository flow emits. */
module Wrappers {

  datatype Option<+T> = None | Some(value: T)
  {
    /** Kotlin's elvis operator `x ?: d`. */
    function GetOr(d: T): (r: T)
      ensures this.Some? ==> r == this.value
      ensures this.None? ==> r == d
    {
      match this
      case Some(v) => v
      case None => d
    }
  }

  /**
   * `Resource<T>`: a flow first emits `Loading`, then `Success` with a
   * possibly-null payload, or `Error` with a possibly-null message.
   */
  datatype Resource<T> = Loading | Success(data: Option<T>) | Error(message: Option<string>)

  /**
   * The outcome of a call made inside `try`: its value, or the exception
   * it threw, whose message may be null.
   */
  datatype Attempt<T> = Done(value: T) | Thrown(message: Option<string>)

  /**
   * A server call inside `try` that tells HTTP errors apart: its value, an
   * `HttpException` with its status code and status text, or any other
   * exception with its possibly-null message.
   */
  datatype Llamada<T> = Ok(value: T) | HttpError(code: int, httpMessage: string) | Failure(message: Option<string>)

  /** A message in a Kotlin string template: a null message prints as "null". */
  function MessageText(m: Option<string>): (r: string)
    ensures m.Some? ==> r == m.value
    ensures m.None? ==> r == "null"
  {
    m.GetOr("null")
  }
}
