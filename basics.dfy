/** Failure-carrying values shared by every module of the model. */
module Basics {

  /** Python's `None` or a value. */
  datatype Option<+T> = None | Some(value: T)

  /** A computed value, or the exception that ended the computation. */
  datatype Result<+T, +E> = Success(value: T) | Failure(error: E)

  /** An operation that returns nothing, or the exception that ended it. */
  datatype Outcome<+E> = Pass | Fail(error: E)

  /** The exceptions the modelled code can end with. */
  datatype Error =
    | BadStatus(operation: string, status: int)   // status outside the accepted set
    | ExceptionReported(operation: string)         // reply's exception field reads as null
    | KeyMissing(key: string)                      // KeyError
    | TypeMismatch(what: string)                   // TypeError
    | AttributeMissing(name: string)               // AttributeError
    | IndexOutOfRange                              // IndexError
    | Unbound(name: string)                        // UnboundLocalError
    | DivisionByZero                               // ZeroDivisionError
    | SetupFailed                                  // `_initial_setup`'s wrapping exception
    | DeleteFailed                                 // `delete_volume`'s bare backend exception
}
