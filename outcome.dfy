/** What a single probe of a URL comes back with, and which of the crawler's
    result arrays that sends the URL to. */
module Outcomes {

  /** The result of `open_url(href)`: either a response arrived, or one of the
      exceptions that `check_availability` rescues was raised instead. */
  datatype Outcome =
    | Response(status: int)   // a response with this status code
    | InvalidURIError         // URI(href) rejected the string; no request was sent
    | TimeoutError            // no response within the per-request timeout
    | OtherError              // any other StandardError: DNS, refused connection, TLS, ...

  /** The crawler's six result arrays. */
  datatype ResultArray =
    | SuccessLinks | FailedLinks | TimedOutLinks | InvalidLinks | ForbiddenLinks | ExceptionLinks

  const Forbidden403 := 403          // section 15.5.4 of RFC 9110
  const MovedPermanently301 := 301   // section 15.4.2 of RFC 9110
  const Found302 := 302              // section 15.4.3 of RFC 9110

  /** `Net::HTTPSuccess`: the 2xx status class, section 15.3 of RFC 9110. */
  predicate IsSuccessStatus(status: int) {
    200 <= status < 300
  }

  predicate IsSuccess(o: Outcome) {
    o.Response? && IsSuccessStatus(o.status)
  }

  /** The classification table, read by columns: which outcomes each array
      records. Every failure is recorded in failed_links; redirects and
      unparsable URLs share invalid_links; any other status is recorded in
      failed_links alone. */
  predicate RecordedIn(o: Outcome, a: ResultArray) {
    match a
    case SuccessLinks => IsSuccess(o)
    case FailedLinks => !IsSuccess(o)
    case ForbiddenLinks => o == Response(Forbidden403)
    case InvalidLinks => o == Response(MovedPermanently301) || o == Response(Found302) || o == InvalidURIError
    case TimedOutLinks => o == TimeoutError
    case ExceptionLinks => o == OtherError
  }

  /** The arrays that name a specific kind of failure. */
  predicate IsSpecific(a: ResultArray) {
    a.ForbiddenLinks? || a.InvalidLinks? || a.TimedOutLinks? || a.ExceptionLinks?
  }
}
