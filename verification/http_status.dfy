/**
 * The HTTP status codes the realtime client distinguishes: 200 opens the
 * stream, and five transient statuses (RFC 9110 sections 15.5.9, 15.6.3,
 * 15.6.4 and 15.6.5, and RFC 6585 section 4) are worth retrying.
 */
module HttpStatus {

  const HttpOk: int := 200
  const HttpClientTimeout: int := 408
  const HttpTooManyRequests: int := 429
  const HttpBadGateway: int := 502
  const HttpUnavailable: int := 503
  const HttpGatewayTimeout: int := 504

  /** The statuses on which the client retries rather than reporting a terminal error. */
  predicate IsStatusCodeRetryable(statusCode: int)
    ensures IsStatusCodeRetryable(statusCode) ==> statusCode != HttpOk && 400 <= statusCode < 600
    ensures 500 <= statusCode < 600 ==> (IsStatusCodeRetryable(statusCode) <==> 502 <= statusCode <= 504)
  {
    || statusCode == HttpClientTimeout
    || statusCode == HttpTooManyRequests
    || statusCode == HttpBadGateway
    || statusCode == HttpUnavailable
    || statusCode == HttpGatewayTimeout
  }
}
