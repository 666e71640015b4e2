/** Option and Result values, and the outcome of one run of an asynchronous thunk. */
module Wrappers {

  /** A value that may be absent (`null` / `undefined` in the application). */
  datatype Option<+T> = None | Some(value: T)

  /** The settled value of a thunk: fulfilled with a payload, or rejected with the thrown message. */
  datatype Result<+T> = Ok(value: T) | Err(message: string)

  /** What one run of a thunk produced: its settled result and the requests it sent, in order. */
  datatype ThunkRun<+P, +Req> = ThunkRun(result: Result<P>, requests: seq<Req>)
}
