/** The Python exceptions that the sound algebra and its helpers can raise,
    and a result type that carries either a value or the exception raised. */
module Exceptions {

  datatype Error =
    | ValueError          // `list.index` of a missing item, `np.max` of an empty array, a negative size
    | KeyError            // a dictionary lookup of a missing key
    | IndexError          // a list index past the end
    | ZeroDivisionError   // a float or integer division by zero

  datatype Result<T> = Ok(value: T) | Err(error: Error)
}
