/**
  The client's error taxonomy (`Zibal.Error`): three internal kinds found
  before the exchange and three endpoint kinds about the exchange, each with a
  fixed negative code.
 */
module Errors {
  import opened Wrappers
  import opened Wire

  datatype Error =
    // Internal
    | InvalidConfig
    | BadUrl(url: string)
    | BadBody(body: Body)
    // Endpoint
    | BadResponse(response: Option<UrlResponse>)
    | BadResponseData(data: seq<byte>)
    | InvalidStatusCode

  /** `Error.code`. */
  function Code(e: Error): (c: int)
    ensures -202 <= c <= -100
    ensures c <= -200 <==> (e.BadResponse? || e.BadResponseData? || e.InvalidStatusCode?)
  {
    match e
    case InvalidConfig => -100
    case BadUrl(_) => -101
    case BadBody(_) => -102
    case BadResponse(_) => -200
    case BadResponseData(_) => -201
    case InvalidStatusCode => -202
  }

  /** `Error.isInternal`, derived from the code exactly as the source does. */
  predicate IsInternal(e: Error)
    ensures IsInternal(e) <==> (e.InvalidConfig? || e.BadUrl? || e.BadBody?)
  {
    Code(e) < 0 && Code(e) > -200
  }

  /**
    `Error.message`. `rendered` stands for Swift's description of the payload
    of `badBody`, `badResponse` and `badResponseData`; the URL of `badURL` is
    a string and is used as it is.
   */
  function Message(e: Error, rendered: string): (m: string)
    ensures |m| >= 9
    ensures e.InvalidConfig? ==> m == "Invalid Configuration"
    ensures e.BadUrl? ==> m == "Bad URL: " + e.url
    ensures e.BadBody? ==> m == "Bad Body: " + rendered
    ensures e.BadResponse? ==> m == "Bad Response: " + rendered
    ensures e.BadResponseData? ==> m == "Bad ResponseData: " + rendered
    ensures e.InvalidStatusCode? ==> m == "Invalid Status Code"
  {
    match e
    case InvalidConfig => "Invalid Configuration"
    case BadUrl(url) => "Bad URL: " + url
    case BadBody(_) => "Bad Body: " + rendered
    case BadResponse(_) => "Bad Response: " + rendered
    case BadResponseData(_) => "Bad ResponseData: " + rendered
    case InvalidStatusCode => "Invalid Status Code"
  }

  /** Internal errors are exactly those whose code lies above the endpoint range. */
  lemma InternalKinds(e: Error)
    ensures IsInternal(e) <==> Code(e) > -200
  {
  }

  /** Each kind has its own code. */
  lemma CodeDeterminesKind(e: Error, f: Error)
    requires Code(e) == Code(f)
    ensures e.InvalidConfig? == f.InvalidConfig? && e.BadUrl? == f.BadUrl? && e.BadBody? == f.BadBody?
    ensures e.BadResponse? == f.BadResponse? && e.BadResponseData? == f.BadResponseData?
    ensures e.InvalidStatusCode? == f.InvalidStatusCode?
  {
  }

  /** A message names its kind: two errors with equal messages have equal codes, whatever the payloads render to. */
  lemma {:induction false} MessageDeterminesCode(e: Error, r: string, f: Error, s: string)
    requires Message(e, r) == Message(f, s)
    ensures Code(e) == Code(f)
  {
    var m := Message(e, r);
    assert m[..4] == Message(f, s)[..4];
    if m[..4] == "Bad " {
      assert m[4] == Message(f, s)[4];
      if m[4] == 'R' {
        assert m[12] == Message(f, s)[12];
      }
    } else {
      assert m[8] == Message(f, s)[8];
    }
  }
}
