/** The error kinds the emulator raises, as values instead of C++ exceptions. */
module Errors {

  /** One constructor per exception class the core throws or `main` catches. */
  datatype Error =
    | AutomataSyntax              // AutomataSyntaxException: malformed configuration text
    | AutomataStructure           // AutomataStructureException: validate() failed
    | InputSyntax(input: string)  // InputSyntaxError: an input symbol outside the input alphabet
    | InvalidArgument             // std::invalid_argument: bad command line
    | RuntimeError                // std::runtime_error: the configuration file cannot be opened

  /** A value, or the exception that replaced it. */
  datatype Result<T> = Ok(value: T) | Err(error: Error)

  /** Completion of an operation that returns nothing (`void`), or the exception it threw. */
  datatype Outcome = Pass | Fail(error: Error)
}
