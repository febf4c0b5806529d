/** The gateway's global exception handler: a pure mapping from an exception
    to the response entity sent back to the client. */
module ExceptionHandling {
  import opened Dto

  /** The exceptions the handler distinguishes: the gateway's own exception,
      which carries a code, a message and a status, and any other exception. */
  datatype Exception =
    | GatewayException(errorCode: string, errorMessage: string, httpStatus: HttpStatus)
    | OtherException(message: string)

  /** A response entity: the body and the HTTP status of the response itself. */
  datatype ResponseEntity = ResponseEntity(body: GenericResponse, status: HttpStatus)

  const UnexpectedErrorCode := "SYSTEM_E500"
  const UnexpectedErrorMsg := "Internal Server Error. Please try again later!"

  /** The gateway exception an error record describes (inverse of the
      handler for gateway exceptions). */
  function ExceptionOf(error: ErrorResponse): Exception
  {
    GatewayException(error.errorCode, error.errorMessage, error.httpStatus)
  }

  /** Handler for the gateway's own exception: the error record carries the
      exception's fields unchanged, and the response itself is always 200 OK. */
  function HandleProductException(ex: Exception): (r: ResponseEntity)
    requires ex.GatewayException?
    ensures r.status == StatusOk
    ensures !r.body.success && r.body.data == None
    ensures r.body.error.Some? && ExceptionOf(r.body.error.value) == ex
  {
    var error := ErrorResponse(ex.errorCode, ex.errorMessage, ex.httpStatus);
    ResponseEntity(GenericResponse(false, None, Some(error)), StatusOk)
  }

  /** Handler for every other exception: a fixed error that reveals nothing of
      the exception, sent with status 200 OK. */
  function HandleException(ex: Exception): (r: ResponseEntity)
    ensures r.status == StatusOk
    ensures !r.body.success && r.body.data == None
    ensures r.body.error.Some?
    ensures r.body.error.value.errorCode == UnexpectedErrorCode
    ensures r.body.error.value.errorMessage == UnexpectedErrorMsg
    ensures r.body.error.value.httpStatus == StatusInternalServerError
  {
    var error := ErrorResponse(UnexpectedErrorCode, UnexpectedErrorMsg, StatusInternalServerError);
    ResponseEntity(GenericResponse(false, None, Some(error)), StatusOk)
  }

  /** The generic handler's response does not depend on the exception. */
  lemma HandleExceptionIgnoresException(a: Exception, b: Exception)
    ensures HandleException(a) == HandleException(b)
  {
  }

  /** The status reported inside the error never becomes the response
      status: whatever status a gateway exception reports, the response is
      200 OK and carries that status in its error record. */
  lemma ProductStatusOnlyInError(ex: Exception)
    requires ex.GatewayException?
    ensures HandleProductException(ex).status == StatusOk
    ensures HandleProductException(ex).body.error.value.httpStatus == ex.httpStatus
  {
  }

  /** Different gateway exceptions give different responses: the handler is
      injective, so nothing the exception reports is lost. */
  lemma HandleProductExceptionInjective(a: Exception, b: Exception)
    requires a.GatewayException? && b.GatewayException?
    requires HandleProductException(a) == HandleProductException(b)
    ensures a == b
  {
    assert ExceptionOf(HandleProductException(a).body.error.value) == a;
    assert ExceptionOf(HandleProductException(b).body.error.value) == b;
  }
}
