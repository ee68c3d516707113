/** Small datatypes shared by every module of the model. */
module Wrappers {

  datatype Option<+T> = None | Some(value: T)

  /** The settled state of an awaited call into code outside the model
      (an HTTP request, a JSON decode): it either resolves with a value
      or rejects with an error whose `message` is a string; "" stands for
      an error with no (or an empty) message. */
  datatype Outcome<+T> = Resolved(value: T) | Rejected(message: string)

  /** `err.message || fallback`: a missing or empty message selects the fallback. */
  function MessageOr(message: string, fallback: string): (r: string)
    ensures message != "" ==> r == message
    ensures message == "" ==> r == fallback
  {
    if message != "" then message else fallback
  }
}
