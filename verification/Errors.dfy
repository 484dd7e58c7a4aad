/** What a provider call can fail with. */
module Errors {
  datatype ErrorKind =
    | RateLimit | AuthError | BillingError | Transient | ModelNotFound
    | Timeout | ContextOverflow | BadRequest | UnknownError
}
