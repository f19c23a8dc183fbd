/** Optional values and the outcome of a call into a service the model cannot see. */
module Wrappers {

  /** A value that may be absent: `null`/`undefined` in the service's code. */
  datatype Option<+T> = None | Some(value: T)

  /** What an external call did: returned a value, or threw with a message. */
  datatype Outcome<+T> = Returned(value: T) | Threw(message: string)
}
