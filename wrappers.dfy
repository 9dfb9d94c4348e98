/** Failure-carrying results shared by the whole model. */
module Wrappers {

  /** JavaScript's `null` / `undefined` as a value that may be absent. */
  datatype Option<T> = None | Some(value: T)

  /** The exceptions the modelled code can raise, by their JavaScript class. */
  datatype Exception =
    | TypeError(message: string)
    | ReferenceError(message: string)
    | SyntaxError(message: string)
    | Error(message: string)

  /** The completion of an operation that may throw: it returns normally or raises. */
  datatype Outcome = Normal | Thrown(exception: Exception)
}
