/** The HTTP exceptions of the web framework that the core throws, with the
    message each one carries. */
module HttpErrors {

  datatype HttpError =
    | BadRequest(message: string)
    | Unauthorized(message: string)
    | Forbidden(message: string)
    | NotFound(message: string)
    | InternalServerError(message: string)

  /** Message of an `UnauthorizedException` built without arguments. */
  const DefaultUnauthorizedMessage: string := "Unauthorized"

  /** Message of an `InternalServerErrorException` built without arguments. */
  const DefaultInternalServerErrorMessage: string := "Internal Server Error"

  /** Message of the 500 the framework answers with when an operation throws
      something that is not one of its HTTP exceptions, such as a failed
      database query. */
  const UnhandledErrorMessage: string := "Internal server error"
}
