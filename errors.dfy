/** The two exception classes of core/exceptions.py that the modelled services raise. */
module Errors {

  /**
   * `AIExtractionError(message)`, and its subclass
   * `AIServiceUnavailableError(message, details={"last_error": ...})`.
   * Both are extraction errors, so an `except AIExtractionError` catches either.
   */
  datatype AIError =
    | AIExtractionError(message: string)
    | AIServiceUnavailableError(message: string, lastError: string)
}
