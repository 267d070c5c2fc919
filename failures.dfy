/** Option, Result and the exceptions the PHP code raises, as values.
    A PHP `throw` becomes an `Err`; an engine `TypeError` or an `Error` on an
    uninitialised typed property becomes an `Err` of its own kind. */
module Failures {

  datatype Option<+T> = None | Some(value: T)

  /** The exceptions of the library and of the PHP engine that the model distinguishes. */
  datatype Exception =
    | RuntimeException(message: string)
    | BadMethodCallException(message: string)
    | ContainerNotFoundException(message: string)
      /** The engine's TypeError: a null, an array or a value of the wrong type
          reached a typed property, a typed parameter or a typed return. For a
          parameter or a return its text is a prefix of PHP's message without
          the namespace: the tail ", <type> given" or ", <type> returned" is
          written out only where a single type can reach that point. For a
          property assignment the text is the property's name. */
    | TypeError(context: string)
      /** The engine's Error on reading a typed property before it was assigned. */
    | Uninitialized(owner: string)
  {
    /** Whether this is an `\Exception` (the library's and SPL's exceptions)
        rather than an engine `Error`: what a parameter typed `\Exception`
        accepts. Its `getMessage()` is then `message`. */
    predicate IsException() {
      RuntimeException? || BadMethodCallException? || ContainerNotFoundException?
    }
  }

  /** Reading a string at the offset of a key such as `'State'`: a string
      offset that is not an integer. */
  const StringOffset: Exception := TypeError("Cannot access offset of type string on string")

  datatype Result<+T> = Ok(value: T) | Err(error: Exception) {
    predicate IsFailure() { Err? }

    function PropagateFailure<U>(): Result<U>
      requires Err?
    {
      Err(error)
    }

    function Extract(): T
      requires Ok?
    {
      value
    }
  }
}
