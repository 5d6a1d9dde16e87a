/** Failure-compatible wrappers shared by every module of the model. */
module Wrappers {

  /** An optional value: `None` stands for JavaScript's `undefined`/`null` where a value may be absent. */
  datatype Option<+T> = None | Some(value: T) {
    function GetOr(default: T): T {
      match this
      case Some(v) => v
      case None => default
    }
  }

  /** The outcome of an operation that may throw: `Err` carries the error's message text. */
  datatype Result<+T> = Ok(value: T) | Err(message: string) {
    predicate IsFailure() { Err? }

    function PropagateFailure<U>(): Result<U>
      requires Err?
    {
      Err(message)
    }

    function Extract(): T
      requires Ok?
    {
      value
    }
  }
}
