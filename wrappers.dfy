/** Option, thrown faults and the two shapes of remote results used throughout the model. */
module Wrappers {

  datatype Option<+T> = None | Some(value: T) {
    function GetOr(default: T): T {
      match this
      case Some(v) => v
      case None => default
    }
  }

  /**
   * A thrown or returned error value: whether it is an `Error` instance, and its `message`
   * property (None when it carries none). A plain-object store error has a message without
   * being an `Error` instance.
   */
  datatype Fault = Fault(isError: bool, message: Option<string>)

  /** How an awaited call settled: resolved with a value, or rejected with a fault. */
  datatype Outcome<+T> = Ok(value: T) | Err(fault: Fault)

  /** A reply of the data service, `{ data, error }`; `data` is None when it is null. */
  datatype Reply<+T> = Reply(data: Option<T>, error: Option<Fault>)

  /** `err instanceof Error ? err.message : fallback`; the message of an `Error` is a string. */
  function MessageOr(f: Fault, fallback: string): (m: string)
    ensures !f.isError ==> m == fallback
    ensures f.isError && f.message.Some? ==> m == f.message.value
  {
    if f.isError then f.message.GetOr("") else fallback
  }

  /** `err.message || fallback`: an absent or empty message gives the fallback. */
  function TruthyMessageOr(f: Fault, fallback: string): string {
    OrElse(f.message, fallback)
  }

  /** `s || fallback` for a string that may be null or undefined. */
  function OrElse(s: Option<string>, fallback: string): string {
    if s.Some? && s.value != "" then s.value else fallback
  }
}
