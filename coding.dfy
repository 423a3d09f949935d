/**
  The JSON hooks that tie `Status` to its wire code (`Status.encode(to:)`,
  `Status.init(from:)`) and the decoding of a verification reply, whose
  `status` field goes through that hook while the reply is being decoded.
 */
module Coding {
  import opened Wrappers
  import opened StatusCode
  import opened Wire
  import Errors

  /** `Status.encode(to:)`: a status is written as its integer code. */
  function EncodeStatus(s: Status): (c: int)
    ensures c in WireCodes
  {
    Code(s)
  }

  /** `Status.init(from:)`: reads an integer and throws `invalidStatusCode` when it is unmapped. */
  function DecodeStatus(c: int): (r: Result<Status, Errors.Error>)
    ensures r.Failure? <==> c !in WireCodes
    ensures r.Failure? ==> r.error == Errors.InvalidStatusCode
  {
    match FromCode(c)
    case Some(s) => Success(s)
    case None => Failure(Errors.InvalidStatusCode)
  }

  /** Writing a status and reading it back gives the same status. */
  lemma {:induction false} StatusRoundTrip(s: Status)
    ensures DecodeStatus(EncodeStatus(s)) == Success(s)
  {
    DecodeEncode(s);
  }

  /** Reading a mapped integer and writing the status back gives the same integer. */
  lemma {:induction false} CodeRoundTrip(c: int)
    requires c in WireCodes
    ensures DecodeStatus(c).Success? && EncodeStatus(DecodeStatus(c).value) == c
  {
    EncodeDecode(c);
  }

  /**
    The JSON fields of a verification reply as the decoder finds them, before
    `status` is turned into a `Status`; `status` is `None` when the key is absent or null.
   */
  datatype VerifyFields = VerifyFields(
    result: int, message: string, paidAt: Option<string>, amount: Option<int>, status: Option<int>)

  /**
    Decoding a `VerifyResponse` from its fields: an absent `status` stays `nil`,
    a present one is decoded at once, and an unmapped one fails the whole reply.
   */
  function DecodeVerifyResponse(f: VerifyFields): (r: Result<VerifyResponse, Errors.Error>)
    ensures r.Failure? <==> (f.status.Some? && f.status.value !in WireCodes)
    ensures r.Failure? ==> r.error == Errors.InvalidStatusCode
    ensures r.Success? ==>
      && r.value.result == f.result && r.value.message == f.message
      && r.value.paidAt == f.paidAt && r.value.amount == f.amount
      && r.value.status.Some? == f.status.Some?
      && (r.value.status.Some? ==> EncodeStatus(r.value.status.value) == f.status.value)
  {
    match f.status
    case None => Success(VerifyResponse(f.result, f.message, f.paidAt, f.amount, None))
    case Some(c) =>
      match DecodeStatus(c)
      case Failure(e) => Failure(e)
      case Success(s) =>
        CodeRoundTrip(c);
        Success(VerifyResponse(f.result, f.message, f.paidAt, f.amount, Some(s)))
  }

  /** An unmapped status (999, say) is never silently dropped: the reply does not decode. */
  lemma UnmappedVerifyStatus(f: VerifyFields)
    requires f.status == Some(999)
    ensures DecodeVerifyResponse(f) == Failure(Errors.InvalidStatusCode)
  {
  }
}
