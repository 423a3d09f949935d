# Zibal payment-gateway client, modelled in Dafny

This project models the core of the Zibal Swift client (`Sources/Zibal.swift`):
a library that asks the Zibal gateway to start a payment (`request`), checks a
payment afterwards (`verify`) and builds the redirect URL for a track id
(`startURL`). The model covers:

- **`Status`** (module `StatusCode`): the 22 named gateway outcomes and their 23
  integer wire codes (`paid` carries whether it was verified), the partial
  decoder `init?(code:)`, the total encoder `code`, the message table, and the
  JSON hooks that write a status as its code and throw `invalidStatusCode` on an
  unmapped integer (module `Coding`).
- **`Error`** (module `Errors`): six failure kinds with fixed codes -100, -101,
  -102, -200, -201, -202, the `isInternal` test derived from the code, and the
  message of each kind.
- **Wire payloads** (module `Wire`): the two outbound bodies and the two replies.
  The reply to `request` keeps its `result` as a raw integer and decodes it only
  when `resultStatus` is asked for. The reply to `verify` decodes its `status`
  field while the reply is decoded, so an unmapped status fails the whole reply.
- **Configuration** (module `Configuration`): `Config.init` and `isValid`, the
  log levels and the test that decides whether a log line is written.
- **The client** (module `Gateway`): the singleton `Zibal.shared` is a class
  whose one mutable field is the stored configuration. `Init` replaces it only
  when the new configuration is valid. `Request` and `Verify` check the stored
  configuration, then call `Post`. `Post` builds a POST request step by step
  and hands it to the transport.

The network, the JSON codec and `URL(string:)` are parameters of the model. A
completion handler is modelled by the list of argument triples it is called
with, and the transport by a function from the request sent to what the data
task reports. Each method is specified by a pure function (`Posted`,
`RequestOutcome`, `VerifyOutcome`). The lemmas about those functions state what
a caller can observe:

- Without a valid configuration a call completes with `invalidConfig` and sends
  nothing.
- Every completion carries exactly one of an error and a body.
- The only errors that reach a caller are `invalidConfig` and `badResponse`.
- A reply that does not decode is reported as `badResponse`, never as
  `badResponseData`.
- A body that fails to encode still lets the request go out. In that case the
  caller's handler is called twice.

Two facts about the code that the model keeps:

- `isInternal` is `code < 0 && code > -200`, so `invalidConfig` (-100) is
  internal.
- `post` sets only the HTTP method and the body. It sets no `Content-Type`
  header.

## Model

| member | source | states |
|---|---|---|
| `StatusCode.FromCode` | Sources/Zibal.swift:181-208 | `init?(code:)` yields a status exactly for the 23 listed wire codes |
| `StatusCode.Code` | Sources/Zibal.swift:210-235 | every status encodes to one of the 23 listed wire codes |
| `StatusCode.Message` | Sources/Zibal.swift:237-264 | the message lookup is total and never empty |
| `StatusCode.DecodeEncode` | Sources/Zibal.swift:181-235 | decoding the code of any status, `paid(true)` and `paid(false)` included, gives that status back |
| `StatusCode.EncodeDecode` | Sources/Zibal.swift:181-235 | every listed wire code decodes, and the decoded status encodes back to that code |
| `StatusCode.UnmappedCodes` | Sources/Zibal.swift:181-208 | `init?(code:)` returns nil exactly for integers below -2, 0, 13..99, 101, 107..200 and above 203 |
| `StatusCode.CodeInjective` | Sources/Zibal.swift:210-235 | two statuses with the same code are the same status |
| `StatusCode.CodeSurjective` | Sources/Zibal.swift:210-235 | every listed wire code is the code of some status |
| `Wire.RequestResultStatus` | Sources/Zibal.swift:282-290 | `resultStatus` of a request reply is present iff `result` is a listed code, and then encodes back to `result` |
| `Wire.VerifyResultStatus` | Sources/Zibal.swift:299-301 | the same for the verification reply |
| `Errors.Code` | Sources/Zibal.swift:103-118 | error codes lie in -202..-100, and a code is at most -200 exactly for the three endpoint kinds |
| `Errors.InternalKinds` | Sources/Zibal.swift:120-122 | `isInternal` holds exactly when the code is above -200 |
| `Errors.CodeDeterminesKind` | Sources/Zibal.swift:103-118 | two errors with the same code are of the same kind |
| `Errors.IsInternal` | Sources/Zibal.swift:120-122 | `isInternal` holds exactly for `invalidConfig`, `badURL` and `badBody` |
| `Errors.Message` | Sources/Zibal.swift:124-139 | each kind's message is its fixed text (`Invalid Configuration`, `Invalid Status Code`), or its fixed prefix (`Bad URL: `, `Bad Body: `, `Bad Response: `, `Bad ResponseData: `) followed by the URL or the rendered payload |
| `Errors.MessageDeterminesCode` | Sources/Zibal.swift:124-139 | two equal messages come from errors with equal codes, whatever their payloads render to |
| `Configuration.RawValue` | Sources/Zibal.swift:268-271 | raw log levels are 0..2, and 0 exactly for `none` |
| `Configuration.LevelName` | Sources/Zibal.swift:273-279 | the printed level tag is empty exactly for `none` |
| `Configuration.MakeConfig` | Sources/Zibal.swift:311-319 | `Config.init` throws `invalidConfig` iff the merchant is empty, the callback URL is empty or does not parse; a built config holds the given fields and is valid |
| `Configuration.ShouldLog` | Sources/Zibal.swift:345-349 | a line is logged only when a config is stored whose level is not none, and a non-error line only at level verbose |
| `Configuration.LogGate` | Sources/Zibal.swift:345-349 | a line is logged iff a config is stored and its level is verbose, or is error and the line is an error; level none logs nothing |
| `Coding.EncodeStatus` | Sources/Zibal.swift:168-171 | a status is written as one of the listed wire codes |
| `Coding.DecodeStatus` | Sources/Zibal.swift:173-179 | reading an integer throws exactly for unmapped integers, and the error is `invalidStatusCode` |
| `Coding.StatusRoundTrip` | Sources/Zibal.swift:168-179 | writing a status and reading it back gives the same status |
| `Coding.CodeRoundTrip` | Sources/Zibal.swift:168-179 | reading a listed code and writing the status back gives the same code |
| `Coding.DecodeVerifyResponse` | Sources/Zibal.swift:292-297 | a verification reply fails to decode exactly when its `status` is present and unmapped; otherwise every field is kept and the status encodes back to the field |
| `Coding.UnmappedVerifyStatus` | Sources/Zibal.swift:173-177 | a `status` of 999 fails the whole reply with `invalidStatusCode` |
| `Decimal.NatToString` | Sources/Zibal.swift:87 | the rendering of a natural number is non-empty, all digits, and has no leading zero |
| `Decimal.IntToString` | Sources/Zibal.swift:87 | the rendering of an integer is non-empty |
| `Decimal.NatRoundTrip` | Sources/Zibal.swift:87 | reading the digits of a rendered natural number gives the number back |
| `Decimal.IntRoundTrip` | Sources/Zibal.swift:87 | reading a rendered integer, sign included, gives the integer back |
| `Decimal.IntToStringInjective` | Sources/Zibal.swift:87 | distinct integers render to distinct strings |
| `Gateway.TaskCompletion` | Sources/Zibal.swift:386-398 | the data-task handler gives exactly one of error and body; a transport error or missing data gives `badResponse` with no response; a decode failure gives `badResponse` with the response; a decoded reply gives the body with the response |
| `Gateway.Posted` | Sources/Zibal.swift:366-379 | an unparsable URL completes with `badURL` and sends nothing; otherwise a POST with the encoded body is sent, completing with `badBody` first when encoding failed, then with the task's outcome |
| `Gateway.Rewrap` | Sources/Zibal.swift:55-62 | a body is handed on with its response; anything else becomes `badResponse` of the response, delivered with no response |
| `Gateway.Delivered` | Sources/Zibal.swift:55-62 | every completion of `post` is re-wrapped, in order |
| `Gateway.RequestOutcome` | Sources/Zibal.swift:47-63 | `request` sends iff a valid config is stored and `<apiBase>/request` parses; an unparsable URL reaches the caller as `badResponse(nil)`; a send is a POST to `<apiBase>/request` whose body is the encoded request body built from the config's merchant and callback URL and the call's arguments; and the caller's last completion is the re-wrapped outcome of the exchange; without a valid config it completes with `invalidConfig` |
| `Gateway.VerifyOutcome` | Sources/Zibal.swift:67-83 | `verify` sends iff a valid config is stored and `<apiBase>/verify` parses; an unparsable URL reaches the caller as `badResponse(nil)`; a send is a POST to `<apiBase>/verify` whose body is the encoded verify body of the config's merchant and the track id, and the caller's last completion is the re-wrapped outcome of the exchange, decoded with the eager status check; without a valid config it completes with `invalidConfig` |
| `Gateway.DeliveredCallerView` | Sources/Zibal.swift:55-62 | a re-wrapped completion carries exactly one of error and body, and its error is `invalidConfig` or `badResponse` with no response |
| `Gateway.RequestWithoutConfig` | Sources/Zibal.swift:47-53 | without a stored valid config, `request` completes once with `invalidConfig` and sends nothing |
| `Gateway.VerifyWithoutConfig` | Sources/Zibal.swift:67-73 | without a stored valid config, `verify` completes once with `invalidConfig` and sends nothing |
| `Gateway.RequestCompletions` | Sources/Zibal.swift:47-63 | `request` completes once or twice, twice iff the sent request has no body, and every completion is one a caller can receive |
| `Gateway.VerifyCompletions` | Sources/Zibal.swift:67-83 | the same for `verify` |
| `Gateway.BadBodyStillSent` | Sources/Zibal.swift:373-378 | a body that fails to encode does not stop the POST; the caller first gets `badResponse` with no response, then the exchange's outcome |
| `Gateway.RequestSucceeds` | Sources/Zibal.swift:386-393 | with a valid config, an encodable body and a decodable reply, `request` completes once with the response and the decoded body |
| `Gateway.RequestPaidExample` | Sources/Zibal.swift:282-290 | a reply with result 1 and track id 4242 reaches the caller with that track id and `resultStatus == paid(true)` |
| `Gateway.RequestTransportFailure` | Sources/Zibal.swift:386-389 | a transport error ends `request` with `badResponse` and no response or body |
| `Gateway.VerifyUnmappedStatus` | Sources/Zibal.swift:75-82 | an unmapped `status` in a verification reply ends `verify` with `badResponse` of the response, never with a body |
| `Gateway.VerifyConfirmed` | Sources/Zibal.swift:75-82 | a reply with status 100 reaches the caller once, as `confirmed`, with its amount and result |
| `Gateway.InitializedIsUsable` | Sources/Zibal.swift:42-48 | a configuration `init` accepts passes the guard of `request` and `verify` |
| `Gateway.StartUrl` | Sources/Zibal.swift:86-89 | a redirect URL is returned exactly when the API base, then `/start/`, then the decimal track id parses as a URL, and it is that string |
| `Gateway.StartUrlInjective` | Sources/Zibal.swift:86-89 | distinct track ids never share a redirect URL |
| `Gateway.Zibal.constructor` | Sources/Zibal.swift:38-40 | the singleton starts with no configuration |
| `Gateway.Zibal.Init` | Sources/Zibal.swift:42-45 | a valid configuration is stored; an invalid one throws `invalidConfig` and leaves the stored one unchanged |
| `Gateway.Zibal.Request` | Sources/Zibal.swift:47-64 | the completions and the sent request are those of `RequestOutcome` on the stored configuration |
| `Gateway.Zibal.Verify` | Sources/Zibal.swift:67-84 | the completions and the sent request are those of `VerifyOutcome` on the stored configuration |
| `Gateway.Zibal.Post` | Sources/Zibal.swift:360-402 | the request built step by step, and the completions, are those of `Posted` |

## Left out

- URLSession and the asynchronous data task: the transport is a function from the request sent to the task's data, response and error flag. Timing and concurrent calls are not modelled.
- The `[weak self]` branch that completes with three nils: the singleton is never deallocated, so the model does not include that branch.
- JSONEncoder and JSONDecoder: encoding a body and decoding a reply are function parameters that succeed or fail. For `verify`, the decoder hands over the raw fields, and `Coding.DecodeVerifyResponse` applies the status hook to them.
- `URL(string:)`: a predicate parameter (`parsesUrl`) with no fixed meaning.
- `URLResponse` is kept only so that replies can be told apart; the client reads none of its fields. `URLRequest` and `Data` are reduced to what the client sets: the URL, the HTTP method and the body bytes.
- Log output: the printed text, `Date()`, the `#if DEBUG` guard and the log calls themselves are side effects with no effect on control flow. Only the gating condition is modelled (`Configuration.ShouldLog`).
- Errors.Message: the descriptions Swift interpolates for the payloads of `badBody`, `badResponse` and `badResponseData` are a string parameter, so the model fixes only the text around them.
- Integer width: Swift's `Int` is 64-bit. The model uses unbounded integers, because the client does no arithmetic on amounts, codes or track ids.
- A `nil` completion handler: the model lists the calls a handler would receive.
- The demo script `Zibal.playground/Contents.swift` is not part of this model. It only calls the API and prints.
