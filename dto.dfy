/** Response records shared by the gateway's filters and its exception handler:
    the HTTP status, the error record and the generic response envelope. */
module Dto {

  datatype Option<+T> = None | Some(value: T)

  /** An HTTP status, identified by its numeric code. */
  datatype HttpStatus = HttpStatus(code: nat)

  const StatusOk := HttpStatus(200)
  const StatusInternalServerError := HttpStatus(500)
  const StatusBadGateway := HttpStatus(502)

  /** An entry of the gateway's error-code enumeration: the constant's own
      name (what `name()` returns) and its human-readable message. */
  datatype ErrorCode = ErrorCode(name: string, errorMsg: string)

  /** The error part of a response: code, message and the status it reports. */
  datatype ErrorResponse = ErrorResponse(errorCode: string, errorMessage: string, httpStatus: HttpStatus)

  /** The envelope every gateway response uses. The payload is untyped in the
      gateway; it is only ever absent (null) in this model. */
  datatype GenericResponse = GenericResponse(success: bool, data: Option<string>, error: Option<ErrorResponse>)

  /** A response body as a Zuul context holds it: text produced upstream, or
      an envelope the gateway serialised itself. */
  datatype ResponseBody = Upstream(text: string) | Json(envelope: GenericResponse)
}
