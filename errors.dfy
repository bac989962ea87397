/** The two error conventions of the library: C++ exceptions, and the NaN
    payload codes of the C entry points. */
module Errors {

  /** The exception types the C++ code throws. */
  datatype Exception = InvalidArgument | OutOfRange

  /** A C++ call that returns a value or throws. */
  datatype Result<T> = Ok(value: T) | Throws(error: Exception)

  /** A C++ call that returns nothing or throws. */
  datatype Outcome = Done | Raised(error: Exception)

  /** A C pointer that may be NULL. */
  datatype Option<T> = None | Some(value: T)

  /** A C call that returns a value or a NaN carrying an error code. */
  datatype Coded<T> = Value(value: T) | Nan(code: nat)
}
