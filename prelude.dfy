/**
 * Values shared by every part of the model: optional values, JavaScript
 * exceptions and the completion of a call that may throw.
 */
module Prelude {

  /** An optional value; `None` stands for `undefined`/`null`. */
  datatype Option<+T> = None | Some(value: T)

  /**
   * A thrown JavaScript value, seen through the two properties the plugin
   * reads: the constructor's name and `message` (`None` when the thrown
   * value has no message property).
   */
  datatype Exception = Exception(name: string, message: Option<string>)

  /**
   * How a call ends: it returns a value, or it throws (for an awaited call,
   * the promise rejects).
   */
  datatype Completion<+T> = Normal(value: T) | Abrupt(exception: Exception)
}
