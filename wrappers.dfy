/** The Option and Result datatypes and the exceptions the modelled code can raise. */
module Wrappers {

  /** `None` stands for JavaScript's `undefined` / `null` where the source tests for it. */
  datatype Option<+T> = None | Some(value: T)

  /** The outcome of a step that may throw. */
  datatype Result<+T, +E> = Success(value: T) | Failure(error: E)

  /**
   * The exceptions the modelled code can raise: the `TypeError` of reading
   * a property of `undefined`, and whatever an interceptor throws.
   */
  datatype JsError = TypeError | Thrown(message: string)
}
