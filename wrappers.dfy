/** Optional values and the error-or-value results that stand for thrown JavaScript errors. */
module Wrappers {

  /** `null`/`undefined` versus a present value. */
  datatype Option<T> = None | Some(value: T)

  /** A call that returns `value`, or throws an `Error` whose `message` is `message`. */
  datatype Result<T> = Ok(value: T) | Err(message: string)

  /** `err.message || fallback`: an empty message is replaced by the fallback text. */
  function MessageOr(message: string, fallback: string): (text: string)
    ensures message != "" ==> text == message
    ensures message == "" ==> text == fallback
  {
    if message != "" then message else fallback
  }
}
