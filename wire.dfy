/**
  The payloads exchanged with the gateway: two outbound bodies and two inbound
  responses, and the opaque transport values the error taxonomy carries.
 */
module Wire {
  import opened Wrappers
  import StatusCode

  newtype byte = x: int | 0 <= x < 256

  /** Foundation's `URLResponse`, kept only so that replies can be told apart; the client reads none of its fields. */
  datatype UrlResponse = UrlResponse(url: string, statusCode: int)

  /** The two outbound JSON bodies (`RequestBody`, `VerifyBody`). */
  datatype Body =
    | RequestBody(merchant: string, callbackUrl: string, amount: int,
                  mobile: Option<string>, description: Option<string>, orderId: Option<string>)
    | VerifyBody(merchant: string, trackId: int)

  /** The decoded reply to a payment request. */
  datatype RequestResponse = RequestResponse(result: int, message: string, trackId: Option<int>)

  /** The decoded reply to a verification; `status` was decoded eagerly as a `Status`. */
  datatype VerifyResponse = VerifyResponse(
    result: int, message: string, paidAt: Option<string>, amount: Option<int>,
    status: Option<StatusCode.Status>)

  /**
    `RequestResponse.resultStatus`: the raw `result` is decoded only when asked
    for, so an unmapped result never fails the response itself.
   */
  function RequestResultStatus(r: RequestResponse): (s: Option<StatusCode.Status>)
    ensures s.Some? <==> r.result in StatusCode.WireCodes
    ensures s.Some? ==> StatusCode.Code(s.value) == r.result
  {
    StatusCode.FromCode(r.result)
  }

  /** `VerifyResponse.resultStatus`, lazily decoded in the same way. */
  function VerifyResultStatus(r: VerifyResponse): (s: Option<StatusCode.Status>)
    ensures s.Some? <==> r.result in StatusCode.WireCodes
    ensures s.Some? ==> StatusCode.Code(s.value) == r.result
  {
    StatusCode.FromCode(r.result)
  }
}
