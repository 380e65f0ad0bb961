/** `GlobalExceptionHandler`: every exception that leaves a controller becomes
    an HTTP status and an `ApiErrorResponse` body. The three application
    exceptions each have their own handler; everything else reaches the
    handler for `Exception`. */
module GlobalExceptionHandler {
  import opened Exceptions

  /** `ApiErrorResponse(status, error, message, path)`. */
  datatype ApiErrorResponse = ApiErrorResponse(status: int, error: string, message: string, path: string)

  /** `ResponseEntity<ApiErrorResponse>`: the status line and the body. */
  datatype ErrorResponse = ErrorResponse(httpStatus: int, body: ApiErrorResponse)

  const GenericMessage := "Something went wrong"

  /** The name Spring's `HttpStatus` gives each status code the handlers use. */
  function StatusName(code: int): (r: string)
    ensures r != "" <==> code == 400 || code == 404 || code == 500 || code == 503
  {
    match code
    case 400 => "BAD_REQUEST"
    case 404 => "NOT_FOUND"
    case 500 => "INTERNAL_SERVER_ERROR"
    case 503 => "SERVICE_UNAVAILABLE"
    case _ => ""
  }

  /** A response whose body agrees with its status line and whose path is the request's. */
  predicate Consistent(r: ErrorResponse, requestUri: string)
  {
    r.body.status == r.httpStatus && r.body.error == StatusName(r.httpStatus) && r.body.path == requestUri
  }

  /** `handleNotFound`. */
  function HandleNotFound(message: string, requestUri: string): (r: ErrorResponse)
    ensures r.httpStatus == 404 && r.body.message == message && Consistent(r, requestUri)
  {
    ErrorResponse(404, ApiErrorResponse(404, "NOT_FOUND", message, requestUri))
  }

  /** `handleBadRequest`. */
  function HandleBadRequest(message: string, requestUri: string): (r: ErrorResponse)
    ensures r.httpStatus == 400 && r.body.message == message && Consistent(r, requestUri)
  {
    ErrorResponse(400, ApiErrorResponse(400, "BAD_REQUEST", message, requestUri))
  }

  /** `handleExternalService`. */
  function HandleExternalService(message: string, requestUri: string): (r: ErrorResponse)
    ensures r.httpStatus == 503 && r.body.message == message && Consistent(r, requestUri)
  {
    ErrorResponse(503, ApiErrorResponse(503, "SERVICE_UNAVAILABLE", message, requestUri))
  }

  /** `handleGeneric`: the exception is not consulted at all. */
  function HandleGeneric(requestUri: string): (r: ErrorResponse)
    ensures r.httpStatus == 500 && r.body.message == GenericMessage && Consistent(r, requestUri)
  {
    ErrorResponse(500, ApiErrorResponse(500, "INTERNAL_SERVER_ERROR", GenericMessage, requestUri))
  }

  /** The handler Spring selects for the exception, applied to it. */
  function Handle(ex: Exception, requestUri: string): (r: ErrorResponse)
    ensures Consistent(r, requestUri)
    ensures r.httpStatus == 404 <==> ex.PokemonNotFound?
    ensures r.httpStatus == 400 <==> ex.BadRequest?
    ensures r.httpStatus == 503 <==> ex.ExternalService?
    ensures r.httpStatus == 500 <==> ex.Unexpected?
    ensures !ex.Unexpected? ==> r.body.message == ex.message
    ensures ex.Unexpected? ==> r.body.message == GenericMessage
  {
    match ex
    case PokemonNotFound(message) => HandleNotFound(message, requestUri)
    case BadRequest(message) => HandleBadRequest(message, requestUri)
    case ExternalService(message) => HandleExternalService(message, requestUri)
    case Unexpected(_) => HandleGeneric(requestUri)
  }

  /** An unexpected failure reveals nothing about itself: any two of them give
      the same response for the same request. */
  lemma UnexpectedIsOpaque(f1: Fault, f2: Fault, requestUri: string)
    ensures Handle(Unexpected(f1), requestUri) == Handle(Unexpected(f2), requestUri)
  {
  }

  /** The status code alone tells which kind of exception was raised, and for
      an application exception the response gives back its message. */
  lemma ResponseIdentifiesException(e1: Exception, e2: Exception, requestUri: string)
    requires Handle(e1, requestUri) == Handle(e2, requestUri)
    ensures !e1.Unexpected? ==> e1 == e2
    ensures e1.Unexpected? <==> e2.Unexpected?
  {
  }
}
