/** Option, Result and the Outcome of an awaited call, shared by every module. */
module Wrappers {

  datatype Option<+T> = None | Some(value: T)

  datatype Result<+T, +E> = Success(value: T) | Failure(error: E)

  /** What an awaited API call resolved to: its value, or the `message` of the error it threw. */
  datatype Outcome<+T> = Ok(value: T) | Fail(message: string)

  /** `e.message || fallback`: the text a page shows for a caught error. */
  function ErrorText(message: string, fallback: string): (r: string)
    ensures message != "" ==> r == message
    ensures message == "" ==> r == fallback
  {
    if message != "" then message else fallback
  }
}
