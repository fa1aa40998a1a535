/** Option and Result wrappers, and the exceptions the Java code throws. */
module Wrappers {

  datatype Option<T> = None | Some(value: T)

  /**
   * The exception classes the core throws or lets through: the project's own checked
   * exceptions, and the unchecked ones that String and Enum methods raise.
   */
  datatype Exception =
    | PropertiesException(key: string)       // CandlestackPropertiesException, naming the property key
    | NagiosException(reason: string)        // CandlestackNagiosException
    | CandlestackException(reason: string)   // CandlestackException
    | IllegalArgument(name: string)          // Enum.valueOf on an unknown name
    | IndexOutOfBounds                       // array index or substring bounds
    | NullPointer                            // a method called on a null reference

  datatype Result<T> = Ok(value: T) | Err(error: Exception)
  {
    predicate IsFailure() { Err? }
    function PropagateFailure<U>(): Result<U> requires Err? { Err(error) }
    function Extract(): T requires Ok? { value }
  }
}
