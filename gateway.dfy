/**
  The gateway client (`Zibal`): the process-wide configuration, the two public
  calls, the JSON-over-POST exchange behind them and the redirect URL.

  The network, the JSON codec and URL parsing are not modelled; they are
  parameters. `parsesUrl` says whether `URL(string:)` accepts a string,
  `encode` is `JSONEncoder` on an outbound body, `transport` is what the data
  task hands back for a request, and `decode` is `JSONDecoder` on the reply.
  A call's completion handler is modelled by the sequence of values it is
  called with, in order.
 */
module Gateway {
  import opened Wrappers
  import opened Wire
  import Errors
  import StatusCode
  import Configuration
  import Coding
  import Decimal

  const ApiBase: string := "https://gateway.zibal.ir"

  /** Foundation's `URLRequest`, as far as `post` sets it up. */
  datatype UrlRequest = UrlRequest(url: string, httpMethod: string, httpBody: Option<seq<byte>>)

  /** What the data task passes to its handler: the reply bytes, the response and whether a transport error was reported. */
  datatype TaskReply = TaskReply(data: Option<seq<byte>>, response: Option<UrlResponse>, failed: bool)

  /** The arguments of one call of a completion handler. */
  datatype Completion<T> = Completion(response: Option<UrlResponse>, error: Option<Errors.Error>, body: Option<T>)

  /** Everything one call of `post` does: the handler calls, and the request handed to the transport, if any. */
  datatype PostResult<T> = PostResult(completions: seq<Completion<T>>, sent: Option<UrlRequest>)

  /** `complete(with:)` and the guards of `request`/`verify`: an error with no response and no body. */
  function Failed<T>(e: Errors.Error): Completion<T> {
    Completion(None, Some(e), None)
  }

  function PostUrl(path: string): string {
    ApiBase + "/" + path
  }

  /**
    The data task's handler in `post`: a transport error or missing bytes give
    `badResponse` with no response; bytes that do not decode give `badResponse`
    together with the response; decoded bytes give the body and no error.
   */
  function TaskCompletion<T>(reply: TaskReply, decode: seq<byte> -> Option<T>): (c: Completion<T>)
    ensures c.error.Some? != c.body.Some?
    ensures c.error.Some? ==> c.error.value == Errors.BadResponse(reply.response)
    ensures c.body.Some? <==> !reply.failed && reply.data.Some? && decode(reply.data.value).Some?
    ensures c.body.Some? ==> c.body == decode(reply.data.value)
    ensures c.response == (if reply.failed || reply.data.None? then None else reply.response)
  {
    if reply.data.None? || reply.failed then
      Failed(Errors.BadResponse(reply.response))
    else
      match decode(reply.data.value)
      case Some(b) => Completion(reply.response, None, Some(b))
      case None => Completion(reply.response, Some(Errors.BadResponse(reply.response)), None)
  }

  /**
    `post`: an unparsable URL completes with `badURL` and sends nothing;
    otherwise a POST request is sent. A body that fails to encode completes
    with `badBody` first, yet the request is still sent, without a body, and
    the handler is called a second time with the task's outcome.
   */
  function Posted<T>(parsesUrl: string -> bool, path: string, body: Body,
                     encode: Body -> Option<seq<byte>>, transport: UrlRequest -> TaskReply,
                     decode: seq<byte> -> Option<T>): (r: PostResult<T>)
    ensures r.sent.None? <==> !parsesUrl(PostUrl(path))
    ensures r.sent.None? ==> r.completions == [Failed(Errors.BadUrl(PostUrl(path)))]
    ensures r.sent.Some? ==>
      && r.sent.value == UrlRequest(PostUrl(path), "POST", encode(body))
      && |r.completions| == (if encode(body).None? then 2 else 1)
      && r.completions[|r.completions| - 1] == TaskCompletion(transport(r.sent.value), decode)
      && (encode(body).None? ==> r.completions[0] == Failed(Errors.BadBody(body)))
  {
    var url := PostUrl(path);
    if !parsesUrl(url) then
      PostResult([Failed(Errors.BadUrl(url))], None)
    else
      var request := UrlRequest(url, "POST", encode(body));
      var early := if encode(body).None? then [Failed(Errors.BadBody(body))] else [];
      PostResult(early + [TaskCompletion(transport(request), decode)], Some(request))
  }

  /**
    The handler `request`/`verify` pass to `post`: a body is handed on with its
    response; anything else becomes `badResponse` carrying the response,
    delivered with no response.
   */
  function Rewrap<T>(c: Completion<T>): (d: Completion<T>)
    ensures d.body == c.body
    ensures d.body.Some? ==> d.response == c.response && d.error.None?
    ensures d.body.None? ==> d == Failed(Errors.BadResponse(c.response))
  {
    if c.body.Some? then Completion(c.response, None, c.body) else Failed(Errors.BadResponse(c.response))
  }

  function Delivered<T>(cs: seq<Completion<T>>): (ds: seq<Completion<T>>)
    ensures |ds| == |cs|
    ensures forall i :: 0 <= i < |cs| ==> ds[i] == Rewrap(cs[i])
  {
    seq(|cs|, i requires 0 <= i < |cs| => Rewrap(cs[i]))
  }

  /** The guard of `request`/`verify`: a configuration is stored and is still valid. */
  predicate Usable(config: Option<Configuration.Config>, parsesUrl: string -> bool) {
    config.Some? && Configuration.IsValid(config.value, parsesUrl)
  }

  /** The outcome of `Zibal.request`. */
  function RequestOutcome(config: Option<Configuration.Config>, parsesUrl: string -> bool,
                          amount: int, mobile: Option<string>, description: Option<string>, orderId: Option<string>,
                          encode: Body -> Option<seq<byte>>, transport: UrlRequest -> TaskReply,
                          decode: seq<byte> -> Option<RequestResponse>): (r: PostResult<RequestResponse>)
    ensures r.sent.Some? ==> Usable(config, parsesUrl)
    ensures r.sent.Some? ==>
      && r.sent.value.url == PostUrl("request") && r.sent.value.httpMethod == "POST"
      && r.sent.value.httpBody == encode(RequestBody(config.value.merchant, config.value.callbackUrl,
                                                     amount, mobile, description, orderId))
    ensures !Usable(config, parsesUrl) ==> r.completions == [Failed(Errors.InvalidConfig)]
    ensures Usable(config, parsesUrl) ==> (r.sent.Some? <==> parsesUrl(PostUrl("request")))
    ensures Usable(config, parsesUrl) && r.sent.None? ==> r.completions == [Failed(Errors.BadResponse(None))]
    ensures r.sent.Some? ==>
      && r.completions != []
      && r.completions[|r.completions| - 1] == Rewrap(TaskCompletion(transport(r.sent.value), decode))
  {
    if !Usable(config, parsesUrl) then
      PostResult([Failed(Errors.InvalidConfig)], None)
    else
      var c := config.value;
      var body := RequestBody(c.merchant, c.callbackUrl, amount, mobile, description, orderId);
      var p := Posted(parsesUrl, "request", body, encode, transport, decode);
      PostResult(Delivered(p.completions), p.sent)
  }

  /** `JSONDecoder` for `VerifyResponse`: the fields, then the eager decoding of `status`. */
  function DecodeVerify(fields: seq<byte> -> Option<Coding.VerifyFields>, data: seq<byte>): Option<VerifyResponse> {
    match fields(data)
    case None => None
    case Some(f) =>
      match Coding.DecodeVerifyResponse(f)
      case Success(v) => Some(v)
      case Failure(_) => None
  }

  /** The outcome of `Zibal.verify`. */
  function VerifyOutcome(config: Option<Configuration.Config>, parsesUrl: string -> bool, trackId: int,
                         encode: Body -> Option<seq<byte>>, transport: UrlRequest -> TaskReply,
                         fields: seq<byte> -> Option<Coding.VerifyFields>): (r: PostResult<VerifyResponse>)
    ensures r.sent.Some? ==> Usable(config, parsesUrl)
    ensures r.sent.Some? ==>
      && r.sent.value.url == PostUrl("verify") && r.sent.value.httpMethod == "POST"
      && r.sent.value.httpBody == encode(VerifyBody(config.value.merchant, trackId))
    ensures !Usable(config, parsesUrl) ==> r.completions == [Failed(Errors.InvalidConfig)]
    ensures Usable(config, parsesUrl) ==> (r.sent.Some? <==> parsesUrl(PostUrl("verify")))
    ensures Usable(config, parsesUrl) && r.sent.None? ==> r.completions == [Failed(Errors.BadResponse(None))]
    ensures r.sent.Some? ==>
      && r.completions != []
      && r.completions[|r.completions| - 1]
         == Rewrap(TaskCompletion(transport(r.sent.value), data => DecodeVerify(fields, data)))
  {
    if !Usable(config, parsesUrl) then
      PostResult([Failed(Errors.InvalidConfig)], None)
    else
      var body := VerifyBody(config.value.merchant, trackId);
      var p := Posted(parsesUrl, "verify", body, encode, transport, data => DecodeVerify(fields, data));
      PostResult(Delivered(p.completions), p.sent)
  }

  /** `Zibal.startURL(for:)`: `<apiBase>/start/<trackId>`, when that string parses as a URL. */
  function StartUrl(parsesUrl: string -> bool, trackId: int): (r: Option<string>)
    ensures r.Some? <==> parsesUrl(ApiBase + "/start/" + Decimal.IntToString(trackId))
    ensures r.Some? ==>
      && |r.value| > |ApiBase| + 7
      && r.value[..|ApiBase| + 7] == ApiBase + "/start/"
      && r.value[|ApiBase| + 7..] == Decimal.IntToString(trackId)
  {
    var s := ApiBase + "/start/" + Decimal.IntToString(trackId);
    if parsesUrl(s) then Some(s) else None
  }

  /** Distinct track ids never share a redirect URL. */
  lemma {:induction false} StartUrlInjective(parsesUrl: string -> bool, t: int, u: int)
    requires StartUrl(parsesUrl, t).Some? && StartUrl(parsesUrl, t) == StartUrl(parsesUrl, u)
    ensures t == u
  {
    Decimal.IntToStringInjective(t, u);
  }

  /**
    What a caller of `request`/`verify` can receive from one delivered
    completion: exactly one of an error and a body, and an error is always
    `invalidConfig` or `badResponse`, delivered with no response.
   */
  predicate CallerView<T>(d: Completion<T>) {
    && d.error.Some? != d.body.Some?
    && (d.error.Some? ==> d.response.None? && (d.error.value.InvalidConfig? || d.error.value.BadResponse?))
  }

  /** Re-wrapping turns every completion of `post` into one the caller can receive. */
  lemma DeliveredCallerView<T>(cs: seq<Completion<T>>)
    ensures forall i :: 0 <= i < |cs| ==> CallerView(Delivered(cs)[i])
  {
  }

  /** Before a valid configuration is stored, `request` completes once with `invalidConfig` and sends nothing. */
  lemma RequestWithoutConfig(config: Option<Configuration.Config>, parsesUrl: string -> bool,
                             amount: int, mobile: Option<string>, description: Option<string>, orderId: Option<string>,
                             encode: Body -> Option<seq<byte>>, transport: UrlRequest -> TaskReply,
                             decode: seq<byte> -> Option<RequestResponse>)
    requires !Usable(config, parsesUrl)
    ensures RequestOutcome(config, parsesUrl, amount, mobile, description, orderId, encode, transport, decode)
         == PostResult([Failed(Errors.InvalidConfig)], None)
  {
  }

  /** The same guard in front of `verify`. */
  lemma VerifyWithoutConfig(config: Option<Configuration.Config>, parsesUrl: string -> bool, trackId: int,
                            encode: Body -> Option<seq<byte>>, transport: UrlRequest -> TaskReply,
                            fields: seq<byte> -> Option<Coding.VerifyFields>)
    requires !Usable(config, parsesUrl)
    ensures VerifyOutcome(config, parsesUrl, trackId, encode, transport, fields)
         == PostResult([Failed(Errors.InvalidConfig)], None)
  {
  }

  /**
    Every call of `request` completes once or twice, and twice only when a
    request was sent whose body failed to encode; each completion is one a
    caller can receive, so `badURL` and `badBody` never reach the caller.
   */
  lemma {:induction false} RequestCompletions(config: Option<Configuration.Config>, parsesUrl: string -> bool,
                             amount: int, mobile: Option<string>, description: Option<string>, orderId: Option<string>,
                             encode: Body -> Option<seq<byte>>, transport: UrlRequest -> TaskReply,
                             decode: seq<byte> -> Option<RequestResponse>)
    ensures var r := RequestOutcome(config, parsesUrl, amount, mobile, description, orderId, encode, transport, decode);
      && 1 <= |r.completions| <= 2
      && (|r.completions| == 2 <==> r.sent.Some? && r.sent.value.httpBody.None?)
      && forall i :: 0 <= i < |r.completions| ==> CallerView(r.completions[i])
  {
    if Usable(config, parsesUrl) {
      var c := config.value;
      var body := RequestBody(c.merchant, c.callbackUrl, amount, mobile, description, orderId);
      DeliveredCallerView(Posted(parsesUrl, "request", body, encode, transport, decode).completions);
    }
  }

  /** The same for `verify`. */
  lemma {:induction false} VerifyCompletions(config: Option<Configuration.Config>, parsesUrl: string -> bool, trackId: int,
                            encode: Body -> Option<seq<byte>>, transport: UrlRequest -> TaskReply,
                            fields: seq<byte> -> Option<Coding.VerifyFields>)
    ensures var r := VerifyOutcome(config, parsesUrl, trackId, encode, transport, fields);
      && 1 <= |r.completions| <= 2
      && (|r.completions| == 2 <==> r.sent.Some? && r.sent.value.httpBody.None?)
      && forall i :: 0 <= i < |r.completions| ==> CallerView(r.completions[i])
  {
    if Usable(config, parsesUrl) {
      var body := VerifyBody(config.value.merchant, trackId);
      DeliveredCallerView(Posted(parsesUrl, "verify", body, encode, transport, data => DecodeVerify(fields, data)).completions);
    }
  }

  /**
    A request whose body does not encode is still sent, as a POST with no
    body; the caller is first told `badResponse` with no response, then gets
    the outcome of the exchange.
   */
  lemma BadBodyStillSent(config: Option<Configuration.Config>, parsesUrl: string -> bool,
                         amount: int, mobile: Option<string>, description: Option<string>, orderId: Option<string>,
                         encode: Body -> Option<seq<byte>>, transport: UrlRequest -> TaskReply,
                         decode: seq<byte> -> Option<RequestResponse>)
    requires Usable(config, parsesUrl) && parsesUrl(PostUrl("request"))
    requires encode(RequestBody(config.value.merchant, config.value.callbackUrl, amount, mobile, description, orderId)).None?
    ensures var r := RequestOutcome(config, parsesUrl, amount, mobile, description, orderId, encode, transport, decode);
      && r.sent == Some(UrlRequest(PostUrl("request"), "POST", None))
      && r.completions == [Failed(Errors.BadResponse(None)),
                           Rewrap(TaskCompletion(transport(r.sent.value), decode))]
  {
  }

  /**
    With a valid configuration, an encodable body and a reply that decodes,
    `request` completes once, with the reply's response and the decoded body.
   */
  lemma RequestSucceeds(config: Option<Configuration.Config>, parsesUrl: string -> bool,
                        amount: int, mobile: Option<string>, description: Option<string>, orderId: Option<string>,
                        encode: Body -> Option<seq<byte>>, transport: UrlRequest -> TaskReply,
                        decode: seq<byte> -> Option<RequestResponse>,
                        data: seq<byte>, meta: UrlResponse, reply: RequestResponse)
    requires Usable(config, parsesUrl) && parsesUrl(PostUrl("request"))
    requires var body := RequestBody(config.value.merchant, config.value.callbackUrl, amount, mobile, description, orderId);
      && encode(body).Some?
      && transport(UrlRequest(PostUrl("request"), "POST", encode(body))) == TaskReply(Some(data), Some(meta), false)
    requires decode(data) == Some(reply)
    ensures var r := RequestOutcome(config, parsesUrl, amount, mobile, description, orderId, encode, transport, decode);
      && r.sent.Some? && r.sent.value.httpBody.Some?
      && r.completions == [Completion(Some(meta), None, Some(reply))]
  {
  }

  /** A reply with result 1 and track id 4242 is delivered as a verified payment with that track id. */
  lemma {:induction false} RequestPaidExample(config: Option<Configuration.Config>, parsesUrl: string -> bool,
                        encode: Body -> Option<seq<byte>>, transport: UrlRequest -> TaskReply,
                        decode: seq<byte> -> Option<RequestResponse>, data: seq<byte>, meta: UrlResponse)
    requires Usable(config, parsesUrl) && parsesUrl(PostUrl("request"))
    requires var body := RequestBody(config.value.merchant, config.value.callbackUrl, 1500, None, None, None);
      && encode(body).Some?
      && transport(UrlRequest(PostUrl("request"), "POST", encode(body))) == TaskReply(Some(data), Some(meta), false)
    requires decode(data) == Some(RequestResponse(1, "ok", Some(4242)))
    ensures var r := RequestOutcome(config, parsesUrl, 1500, None, None, None, encode, transport, decode);
      && |r.completions| == 1 && r.completions[0].body.Some?
      && r.completions[0].body.value.trackId == Some(4242)
      && RequestResultStatus(r.completions[0].body.value) == Some(StatusCode.Paid(true))
  {
    RequestSucceeds(config, parsesUrl, 1500, None, None, None, encode, transport, decode,
                    data, meta, RequestResponse(1, "ok", Some(4242)));
  }

  /** A transport error ends `request` with `badResponse` and no response or body, whatever the reply held. */
  lemma RequestTransportFailure(config: Option<Configuration.Config>, parsesUrl: string -> bool,
                        amount: int, mobile: Option<string>, description: Option<string>, orderId: Option<string>,
                        encode: Body -> Option<seq<byte>>, transport: UrlRequest -> TaskReply,
                        decode: seq<byte> -> Option<RequestResponse>)
    requires Usable(config, parsesUrl) && parsesUrl(PostUrl("request"))
    requires var body := RequestBody(config.value.merchant, config.value.callbackUrl, amount, mobile, description, orderId);
      transport(UrlRequest(PostUrl("request"), "POST", encode(body))).failed
    ensures var r := RequestOutcome(config, parsesUrl, amount, mobile, description, orderId, encode, transport, decode);
      r.completions[|r.completions| - 1] == Failed(Errors.BadResponse(None))
  {
  }

  /**
    A verification reply whose `status` is unmapped fails to decode as a
    whole, so `verify` completes with `badResponse` carrying the response,
    never with a body whose status was dropped.
   */
  lemma VerifyUnmappedStatus(config: Option<Configuration.Config>, parsesUrl: string -> bool, trackId: int,
                             encode: Body -> Option<seq<byte>>, transport: UrlRequest -> TaskReply,
                             fields: seq<byte> -> Option<Coding.VerifyFields>,
                             data: seq<byte>, meta: UrlResponse, f: Coding.VerifyFields)
    requires Usable(config, parsesUrl) && parsesUrl(PostUrl("verify"))
    requires var body := VerifyBody(config.value.merchant, trackId);
      && encode(body).Some?
      && transport(UrlRequest(PostUrl("verify"), "POST", encode(body))) == TaskReply(Some(data), Some(meta), false)
    requires fields(data) == Some(f) && f.status.Some? && f.status.value !in StatusCode.WireCodes
    ensures VerifyOutcome(config, parsesUrl, trackId, encode, transport, fields).completions
         == [Failed(Errors.BadResponse(Some(meta)))]
  {
  }

  /** A verification reply with status 100 is delivered as `confirmed`, with the amount it carried. */
  lemma VerifyConfirmed(config: Option<Configuration.Config>, parsesUrl: string -> bool, trackId: int,
                        encode: Body -> Option<seq<byte>>, transport: UrlRequest -> TaskReply,
                        fields: seq<byte> -> Option<Coding.VerifyFields>,
                        data: seq<byte>, meta: UrlResponse, f: Coding.VerifyFields)
    requires Usable(config, parsesUrl) && parsesUrl(PostUrl("verify"))
    requires var body := VerifyBody(config.value.merchant, trackId);
      && encode(body).Some?
      && transport(UrlRequest(PostUrl("verify"), "POST", encode(body))) == TaskReply(Some(data), Some(meta), false)
    requires fields(data) == Some(f) && f.status == Some(100)
    ensures var r := VerifyOutcome(config, parsesUrl, trackId, encode, transport, fields);
      && |r.completions| == 1 && r.completions[0].response == Some(meta)
      && r.completions[0].body.Some?
      && r.completions[0].body.value.status == Some(StatusCode.Confirmed)
      && r.completions[0].body.value.amount == f.amount
      && r.completions[0].body.value.result == f.result
  {
  }

  /** A configuration that `Zibal.init` accepts passes the guard of `request` and `verify`. */
  lemma InitializedIsUsable(merchant: string, callbackUrl: string, logLevel: Configuration.LogLevel,
                            parsesUrl: string -> bool)
    requires Configuration.MakeConfig(merchant, callbackUrl, logLevel, parsesUrl).Success?
    ensures Usable(Some(Configuration.MakeConfig(merchant, callbackUrl, logLevel, parsesUrl).value), parsesUrl)
  {
  }

  /**
    The singleton `Zibal.shared`. Its stored configuration is the only state
    the client keeps; `parsesUrl` is fixed for the life of the object.
   */
  class Zibal {
    var config: Option<Configuration.Config>
    const parsesUrl: string -> bool

    /** `private init()`: nothing is configured yet. */
    constructor (parsesUrl: string -> bool)
      ensures config == None && this.parsesUrl == parsesUrl
    {
      this.config := None;
      this.parsesUrl := parsesUrl;
    }

    /** `Zibal.init`: stores a new configuration only when it is valid; otherwise throws and keeps the old one. */
    method Init(merchant: string, callbackUrl: string, logLevel: Configuration.LogLevel := Configuration.Verbose)
      returns (outcome: Outcome<Errors.Error>)
      modifies this
      ensures var made := Configuration.MakeConfig(merchant, callbackUrl, logLevel, parsesUrl);
        && (made.Success? ==> config == Some(made.value) && outcome == Pass)
        && (made.Failure? ==> config == old(config) && outcome == Fail(Errors.InvalidConfig))
    {
      var made := Configuration.MakeConfig(merchant, callbackUrl, logLevel, parsesUrl);
      match made {
        case Success(c) =>
          config := Some(c);
          outcome := Pass;
        case Failure(e) =>
          outcome := Fail(e);
      }
    }

    /** `Zibal.request`. */
    method Request(amount: int, mobile: Option<string> := None, description: Option<string> := None,
                   orderId: Option<string> := None,
                   encode: Body -> Option<seq<byte>>, transport: UrlRequest -> TaskReply,
                   decode: seq<byte> -> Option<RequestResponse>)
      returns (completions: seq<Completion<RequestResponse>>, sent: Option<UrlRequest>)
      ensures PostResult(completions, sent) ==
        RequestOutcome(config, parsesUrl, amount, mobile, description, orderId, encode, transport, decode)
    {
      if config.None? || !Configuration.IsValid(config.value, parsesUrl) {
        completions, sent := [Failed(Errors.InvalidConfig)], None;
        return;
      }
      var c := config.value;
      var body := RequestBody(c.merchant, c.callbackUrl, amount, mobile, description, orderId);
      var posted;
      posted, sent := Post("request", body, encode, transport, decode);
      completions := Delivered(posted);
    }

    /** `Zibal.verify`. */
    method Verify(trackId: int, encode: Body -> Option<seq<byte>>, transport: UrlRequest -> TaskReply,
                  fields: seq<byte> -> Option<Coding.VerifyFields>)
      returns (completions: seq<Completion<VerifyResponse>>, sent: Option<UrlRequest>)
      ensures PostResult(completions, sent) == VerifyOutcome(config, parsesUrl, trackId, encode, transport, fields)
    {
      if config.None? || !Configuration.IsValid(config.value, parsesUrl) {
        completions, sent := [Failed(Errors.InvalidConfig)], None;
        return;
      }
      var body := VerifyBody(config.value.merchant, trackId);
      var posted;
      posted, sent := Post("verify", body, encode, transport, data => DecodeVerify(fields, data));
      completions := Delivered(posted);
    }

    /** `post`: builds the request step by step, then hands it to the transport. */
    method Post<T>(path: string, body: Body, encode: Body -> Option<seq<byte>>,
                   transport: UrlRequest -> TaskReply, decode: seq<byte> -> Option<T>)
      returns (completions: seq<Completion<T>>, sent: Option<UrlRequest>)
      ensures PostResult(completions, sent) == Posted(parsesUrl, path, body, encode, transport, decode)
    {
      var urlString := ApiBase + "/" + path;
      if !parsesUrl(urlString) {
        completions, sent := [Failed(Errors.BadUrl(urlString))], None;
        return;
      }
      var request := UrlRequest(urlString, "GET", None);
      request := request.(httpMethod := "POST");
      completions := [];
      match encode(body) {
        case Some(data) =>
          request := request.(httpBody := Some(data));
        case None =>
          completions := completions + [Failed(Errors.BadBody(body))];
      }
      sent := Some(request);
      var reply := transport(request);
      completions := completions + [TaskCompletion(reply, decode)];
    }
  }
}
