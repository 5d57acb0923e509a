/** The error path of an operation: the script has no error handling of its
    own, so every exception it can raise (an empty `max`, an out-of-range
    index) becomes an `Err` here instead of a precondition. */
module Outcomes {

  datatype Result<+T, +E> = Ok(value: T) | Err(error: E)
}
