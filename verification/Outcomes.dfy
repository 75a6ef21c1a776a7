/** Calls that may raise. */
module Outcomes {

  /** What a call can raise: an error of the runtime's own hierarchy (`validation` when it is a
      validation error), any other exception, or a signal such as an interrupt that is not an
      exception and that the step boundary does not catch. */
  datatype Exn =
    | Known(reason: string, message: string, text: string, validation: bool)
    | Unknown
    | Fatal

  datatype Outcome<+T> = Returns(value: T) | Raises(exn: Exn)

  function ValidationError(text: string): Exn {
    Known("validation_error", "runtime input or contract validation failed", text, true)
  }
}
