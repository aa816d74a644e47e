/**
 * Optional values and the outcomes of operations that raise an exception in
 * Python: a `Result` is either the value returned or the exception raised.
 */
module Outcomes {

  datatype Option<+T> = None | Some(value: T)

  /** The Python exceptions the modelled code can raise. */
  datatype Exception =
    | AssertionError(message: string)  // a failed `assert`, with its message
    | IndexError                       // indexing past the end of an axis
    | KeyError                         // a dictionary lookup of a missing key
    | TypeError(message: string)       // a call whose keyword arguments do not fit
    | AxisError                        // a reduction along an axis the array does not have
    | EmptySlice                       // a mean over no elements (NumPy yields NaN)

  datatype Result<+T> = Success(value: T) | Failure(error: Exception)
}
