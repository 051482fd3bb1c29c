/**
 * The error records of `core/error/error.types.ts`. They carry no logic of
 * their own; the creation timestamp and the original thrown value are not
 * part of the record here.
 */
module ErrorTypes {
  import opened Wrappers

  datatype ErrorType = Network | Authentication | Validation | NotFound | ServerError | Unknown

  datatype ErrorSeverity = Low | Medium | High | Critical

  /** The summary of a failed HTTP exchange; the response body is not modelled. */
  datatype ApiError = ApiError(status: nat, statusText: string, url: string, message: string)

  /** One field error of a validation failure. */
  datatype ValidationError = ValidationError(field: string, message: string)

  /** What `details` holds: the HTTP summary, or nothing the model looks into. */
  datatype Details = Api(api: ApiError) | Opaque

  datatype AppError = AppError(
    errorType: ErrorType,
    severity: ErrorSeverity,
    message: string,
    userMessage: string,
    code: Option<string>,
    details: Details)
}
