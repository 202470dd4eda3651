/** The four exception classes of api/modules/errors.py. Each class only
    stores a message; the model keeps the class and drops the message. */
module Errors {

  datatype ApiErrorKind =
    | InvalidAPIToken     // the token is wrong or the caller's IP is not allow-listed
    | RateLimitExceeded   // too many requests for this token
    | APIError            // the service failed or is under maintenance
    | InvalidParameter    // the service rejected the request, typically a malformed tag
}
