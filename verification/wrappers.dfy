/** Option, Result and the JavaScript exception value shared by every module. */
module Wrappers {

  datatype Option<+T> = None | Some(value: T)

  datatype Result<+T, +E> = Ok(value: T) | Err(error: E)

  /** What a `catch (error)` clause receives: an `Error` object with a message,
      or some other thrown value. */
  datatype Exception = Error(message: string) | NonError

  /** `error instanceof Error ? error.message : fallback`, the idiom every
      catch clause of the application uses to pick a user message. */
  function MessageOr(e: Exception, fallback: string): (m: string)
    ensures e.Error? ==> m == e.message
    ensures e.NonError? ==> m == fallback
  {
    match e
    case Error(msg) => msg
    case NonError => fallback
  }
}
