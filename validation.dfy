/**
 * What an Angular validator returns: `null` for a valid control, otherwise an
 * errors object with a single key whose entry carries the message (and, for
 * the legacy length validators, the `requiredLength`).
 */
module Validation {
  import opened Wrappers

  datatype ValidationResult =
    | Valid
    | Invalid(key: string, message: string, requiredLength: Option<int>)

  /** `message || fallback`: an empty or missing message is replaced by the fallback. */
  function OrDefault(message: string, fallback: string): (r: string)
    ensures message != "" ==> r == message
    ensures message == "" ==> r == fallback
  {
    if message == "" then fallback else message
  }

  /**
   * A TypeScript default parameter, `message: string = fallback`: only a
   * missing argument is replaced; an empty string is kept as it is.
   */
  function DefaultParam(message: Option<string>, fallback: string): (r: string)
    ensures message.Some? ==> r == message.value
    ensures message.None? ==> r == fallback
  {
    message.GetOr(fallback)
  }

  function Failure(key: string, message: string): ValidationResult {
    Invalid(key, message, None)
  }
}
