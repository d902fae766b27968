/** Option and Result values, and the Python exceptions the modelled code can raise. */
module Wrappers {

  datatype Option<+T> = None | Some(value: T)

  /** The exceptions that the modelled Python code raises or catches. */
  datatype PyException =
    | ZeroDivisionError
    | IndexError
    | ValueError
    | TypeError
    | AttributeError
    /** `uncertainties` refusing a negative standard deviation. */
    | NegativeStdDev

  /** The outcome of a Python call: a value, or the exception it raised. */
  datatype Result<+T> = Ok(value: T) | Err(error: PyException)
}
