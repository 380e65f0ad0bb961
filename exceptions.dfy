/** The exceptions the backend raises, as values. The three application
    exceptions carry the message they were built with; an exception the JDK
    raises while reading API data is recorded by its kind only. */
module Exceptions {

  /** JDK and HTTP-client failures no handler of the application catches by type. */
  datatype Fault =
    | NullPointer    // dereferencing or unboxing a missing JSON field
    | ClassCast      // a JSON value of an unexpected shape
    | NumberFormat   // `Integer.parseInt` rejecting its input
    | ClientFailure  // any other failure of the HTTP client

  datatype Exception =
    | PokemonNotFound(message: string)
    | BadRequest(message: string)
    | ExternalService(message: string)
    | Unexpected(fault: Fault)
}
