/**
 * The application's error codes, their readable texts, and the exception that
 * carries a code and an optional message (core::errors).
 */
module Errors {
  const NO_ERROR: int := 0
  const NO_CONFIGS_DIRECTORY: int := 1001
  const INVALID_CONFIG: int := 1003

  const DEFAULT_ERROR_TEXT: string := "NO MESSAGE ASSIGNED TO ERROR CODE"

  /** `strerror`: success reads "OK", an invalid configuration has its own text, every other code the default. */
  function StrError(errnum: int): (msg: string)
    ensures msg != ""
    ensures msg == DEFAULT_ERROR_TEXT <==> errnum != NO_ERROR && errnum != INVALID_CONFIG
    ensures errnum == NO_ERROR ==> msg == "OK"
    ensures errnum == INVALID_CONFIG ==> msg == "Invalid config.json passed into the application"
  {
    if errnum == NO_ERROR then "OK"
    else if errnum == INVALID_CONFIG then "Invalid config.json passed into the application"
    else DEFAULT_ERROR_TEXT
  }

  /** `BaseError`: an exception holding an error code and a message for the log. */
  class BaseError {
    var errnum: int
    var userMessage: string

    constructor (errnum: int, msg: string)
      ensures this.errnum == errnum && userMessage == msg
    {
      this.errnum := errnum;
      this.userMessage := msg;
    }

    /** `operator()`: reuse the exception for a new code and message. */
    method Reset(errnum: int, msg: string)
      modifies this
      ensures this.errnum == errnum && userMessage == msg
    {
      this.errnum := errnum;
      this.userMessage := msg;
    }

    function Code(): int
      reads this
    {
      errnum
    }

    /** `what()`: the caller's message when there is one, otherwise the text for the code; never empty. */
    function What(): (r: string)
      reads this
      ensures r != ""
      ensures userMessage != "" ==> r == userMessage
      ensures userMessage == "" ==> r == StrError(Code())
    {
      if userMessage != "" then userMessage else StrError(Code())
    }
  }
}
