/** The exceptions of app/services/exceptions.py that the modelled code raises. */
module ServiceErrors {
  import opened Common

  datatype ServiceError =
    | ValidationError(message: string)
    | ForbiddenError(message: string)
    | ConflictError(message: string)
    | NotFoundError(message: string)
    | TelegramPublishError(message: string, httpStatus: Option<int>, errorCode: Option<int>)
    | UnexpectedError(message: string)

  /** `_is_non_retryable_telegram_error`: a permanent client failure, never a rate limit. */
  predicate NonRetryable(e: ServiceError) {
    && e.TelegramPublishError?
    && e.httpStatus != Some(429) && e.errorCode != Some(429)
    && (IsClientError(e.httpStatus) || IsClientError(e.errorCode))
  }

  predicate IsClientError(code: Option<int>) {
    code.Some? && 400 <= code.value < 500
  }
}
