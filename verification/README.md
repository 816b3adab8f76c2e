# NetworkingKit request pipeline, modelled in Dafny

NetworkingKit turns an endpoint description (`APIRequestable`) and optional
`Encodable` parameters into a decoded `APIDataResponse`, through an
injected network service. This project models the decision logic of that
pipeline:

- the API client (`APIClient`): the fixture short-circuit taken when the
  client uses mock data or the endpoint is mocked, parameter encoding, the
  single call to the service, decoding that keeps the request, response and
  error metadata, and the wrapping of every failure into `APIClientError`.
  Both the async shape and the Combine shape are modelled. Each is a total
  function returning one `Result`. They wrap errors differently, and the
  model records exactly how;
- the two error taxonomies (`NetworkError`, `APIClientError`) with their
  localized titles and descriptions, where localized strings are keys of the
  string table;
- the endpoint descriptor with the protocol's defaults, `requestURL` and
  `asURLRequest(with:)`, and the example `UserAPI` endpoints;
- HTTP methods, their raw values and their semantic flags;
- the JSON coder configuration (`JSONManager`) and `Encodable.toDictionary`;
- the `{status, data, error}` envelope (`DefaultNetworkResponse`) and the
  manager that unwraps it (`APIClientManager`).

The platform pieces are abstract. The network service is a record of two
functions: `perform` is the async request and `publish` the Combine
request. The JSON encoder, `JSONSerialization` and the JSON decoder are the
functions of a `Coding` record; they receive the encoder or decoder
configuration the pipeline built. Modules: `Wrappers`, `Foundation`,
`L10n`, `Errors`, `HTTP`, `JSONCoding`, `EncodableExt`,
`APIRequest`, `UserAPI`, `Client`, `Envelope`, `Manager`.

Some behaviour of the code is easy to misread. The model states it as the
code has it:

- A live response without a body is decoded as empty data. It fails as
  `parsingJSON`, not `noData`.
- The async request rewraps its own `noData` and `parsingJSON` as
  `generic`. So a decoder failure reaches the caller as
  `generic(parsingJSON(e))`.
- The envelope unwrapper returns the envelope's `data` on success even when
  it is nil.
- The unwrapper's `noData` check is never what fails a request made
  through the client: every successful client response carries data.
- The unwrapper drops the envelope's error title and message.

## Model

| member | source | states |
|---|---|---|
| Foundation.AppendingPathComponent | Sources/NetworkingKit/APIClient/APIRequest.swift:53 | appending a path component adds "/" and the component to the absolute string and keeps the base |
| Errors.NetworkErrorTitle | Sources/NetworkingKit/Network/NetworkError.swift:33-54 | the title of every transport error is present and is a string-table key |
| Errors.NetworkErrorDescription | Sources/NetworkingKit/Network/NetworkError.swift:57-78 | the description is a plain key exactly when the error is neither `generic` nor a `badResponse` with a message |
| Errors.NetworkTitlesDistinguishCases | Sources/NetworkingKit/Network/NetworkError.swift:33-54 | two transport errors have the same title key iff they are of the same case; `serverError`'s body and code do not matter |
| Errors.ServerErrorText | Sources/NetworkingKit/Network/NetworkError.swift:35-60 | `serverError` is titled and described by the general error keys, whatever its body and status code |
| Errors.NetworkGenericText | Sources/NetworkingKit/Network/NetworkError.swift:65-66 | `generic(e)` is titled "error" and renders as the "an error occurred" text, ": ", then e's description |
| Errors.BadResponseText | Sources/NetworkingKit/Network/NetworkError.swift:75-76 | `badResponse(m)` renders as m itself when present, whatever the localization; otherwise as the default bad-response text |
| Errors.ClientErrorTitle | Sources/NetworkingKit/APIClient/APIClientError.swift:23-36 | the title of every client error is present and is a string-table key |
| Errors.ClientErrorDescription | Sources/NetworkingKit/APIClient/APIClientError.swift:39-52 | every client error except `networkFailure` is described by a fixed key |
| Errors.NetworkFailureDelegates | Sources/NetworkingKit/APIClient/APIClientError.swift:27-44 | `networkFailure(e)` has exactly e's title and e's description |
| Errors.ClientTextsIgnoreCause | Sources/NetworkingKit/APIClient/APIClientError.swift:25-46 | the texts of `parsingJSON` and `generic` do not depend on their cause; `generic` is titled "error" and described as "an error occurred" |
| Errors.InvalidResponseWording | Sources/NetworkingKit/APIClient/APIClientError.swift:33-50 | `invalidResponse` uses the no-valid-response keys and not the invalid-response ones |
| Errors.RootCauseIsRoot | Sources/NetworkingKit/APIClient/APIClientError.swift:11-15 | unwrapping the causes of `parsingJSON`, `generic` and `networkFailure` ends at an error that wraps nothing |
| Errors.NetworkRootCauseIsRoot | Sources/NetworkingKit/Network/NetworkError.swift:18 | unwrapping a transport `generic` ends at an error that wraps nothing |
| HTTP.RawValue | Sources/NetworkingKit/Models/HTTPRequestPayload.swift:14-23 | every raw value is a non-empty upper-case word |
| HTTP.FromRawValue | Sources/NetworkingKit/Models/HTTPRequestPayload.swift:14-23 | a method recovered from a raw value has that raw value |
| HTTP.RawValueRoundTrip | Sources/NetworkingKit/Models/HTTPRequestPayload.swift:14-23 | every raw value is an upper-case word and maps back to its method |
| HTTP.RawValueInjective | Sources/NetworkingKit/Models/HTTPRequestPayload.swift:15-23 | two methods have the same raw value iff they are the same method |
| HTTP.AllMethodsComplete | Sources/NetworkingKit/Models/HTTPRequestPayload.swift:14-23 | the nine cases, each listed once |
| HTTP.SafeExtent | Sources/NetworkingKit/Models/HTTPRequestPayload.swift:49-51 | the safe methods are exactly GET, HEAD and OPTIONS |
| HTTP.IdempotentExtent | Sources/NetworkingKit/Models/HTTPRequestPayload.swift:55-62 | the idempotent methods are exactly GET, PUT, DELETE, HEAD, OPTIONS and TRACE |
| HTTP.CacheableExtent | Sources/NetworkingKit/Models/HTTPRequestPayload.swift:66-68 | the cacheable methods are exactly GET, HEAD and OPTIONS |
| HTTP.ModifiesStateExtent | Sources/NetworkingKit/Models/HTTPRequestPayload.swift:72-79 | the state-modifying methods are exactly POST, PUT, DELETE and PATCH |
| HTTP.GetPostExtents | Sources/NetworkingKit/Models/HTTPRequestPayload.swift:28-35 | `isGET` and `isPOST` each hold of exactly one method |
| HTTP.PutDeleteExtents | Sources/NetworkingKit/Models/HTTPRequestPayload.swift:38-45 | `isPUT` and `isDELETE` each hold of exactly one method |
| HTTP.FlagRelations | Sources/NetworkingKit/Models/HTTPRequestPayload.swift:49-79 | safe implies idempotent, cacheable iff safe, safe never modifies state, and only PUT and DELETE are both state-modifying and idempotent |
| HTTP.PayloadDefaults | Sources/NetworkingKit/Models/HTTPRequestPayload.swift:86-89 | a payload defaults to no parameters and GET |
| JSONCoding.ToEncoderStrategy | Sources/NetworkingKit/Handlers/JSONManager.swift:16-23 | the encoder converts to snake case iff the strategy is `convertSnakeCase` |
| JSONCoding.ToDecoderStrategy | Sources/NetworkingKit/Handlers/JSONManager.swift:26-33 | the decoder converts from snake case iff the strategy is `convertSnakeCase` |
| JSONCoding.Init | Sources/NetworkingKit/Handlers/JSONManager.swift:48-64 | the configured encoder and decoder are symmetric, share the formatter built from the date format, and take their key strategies from the one given |
| JSONCoding.InitWith | Sources/NetworkingKit/Handlers/JSONManager.swift:71-77 | a manager built from given coders keeps exactly those coders, so it is symmetric iff they are |
| JSONCoding.DefaultManager | Sources/NetworkingKit/Handlers/JSONManager.swift:49-50 | the default manager converts keys to and from snake case and formats dates with "yyyy-MM-dd'T'HH:mm:ss.SSSZ" |
| JSONCoding.ManagerCodesWithItsConfiguration | Sources/NetworkingKit/Handlers/JSONManager.swift:84-96 | encoding and decoding through a manager is the platform coder applied with the manager's strategies and format, with nothing added |
| EncodableExt.ToDictionary | Sources/NetworkingKit/Extensions/Encodable.swift:15-29 | nil when encoding throws or the JSON is not an object at top level; otherwise the object's fields |
| EncodableExt.ToDictionaryFormatted | Sources/NetworkingKit/Extensions/Encodable.swift:36-52 | the convenience overload gives the mapping a `JSONManager` with the same date format and key strategy would give |
| EncodableExt.ConvenienceMatchesDefaultManager | Sources/NetworkingKit/Extensions/Encodable.swift:36-50 | the convenience overload with its defaults gives the same mapping as `toDictionary(with:)` on a default manager's encoder |
| APIRequest.ProtocolDefaults | Sources/NetworkingKit/APIClient/APIRequest.swift:57-66 | a conformance that overrides nothing is not mocked, has no fixture, an empty fixture name and a 60-second timeout |
| APIRequest.RequestURL | Sources/NetworkingKit/APIClient/APIRequest.swift:49-54 | the URL is the base URL followed by the version and then the path; a missing base URL is excluded by the precondition |
| APIRequest.AsURLRequest | Sources/NetworkingKit/APIClient/APIRequest.swift:73-80 | the request targets `requestURL`, its method string maps back to the method, and its headers and timeout are the endpoint's; it has no body |
| UserAPI.Endpoint | Sources/NetworkingKit/Example/UserAPI.swift:15-37 | every UserAPI endpoint has base URL "https://api.example.com", version "v1/users", the path of its case and the headers Authorization "Bearer token" and Accept "application/json" |
| UserAPI.UsesProtocolDefaults | Sources/NetworkingKit/Example/UserAPI.swift:15-37 | both endpoints keep the protocol defaults and differ only in their path |
| UserAPI.RequestURLs | Sources/NetworkingKit/Example/UserAPI.swift:17-31 | the absolute URLs are ".../v1/users/<id>" and ".../v1/users/<id>/update" |
| Client.InitDefaults | Sources/NetworkingKit/APIClient/APIClient.swift:67-75 | a client defaults to the default JSON manager and no mock data |
| Client.WrapError | Sources/NetworkingKit/APIClient/APIClient.swift:100-104 | a `NetworkError` becomes `networkFailure` around the same error; every other error becomes `generic` around it |
| Client.EncodeParameters | Sources/NetworkingKit/APIClient/APIClient.swift:186-188 | no parameters give no payload; parameters are turned into a mapping by `toDictionary` with the manager's encoder |
| Client.SuccessCarriesData | Sources/NetworkingKit/APIClient/APIClient.swift:196-208 | every success of either shape, mocked or live, carries data |
| Client.UnencodableParametersSendNoPayload | Sources/NetworkingKit/APIClient/APIClient.swift:186-188 | parameters whose encoding fails are sent as no payload; the request does not fail |
| Client.DecodeResponse | Sources/NetworkingKit/APIClient/APIClient.swift:196-208 | succeeds iff the decoder accepts the body, with an absent body read as empty; request, response and error are carried over; a failure is `parsingJSON` around the decoder's error |
| Client.DecodeOnlyAsync | Sources/NetworkingKit/APIClient/APIClient.swift:113-122 | no data is `noData`; decoder success gives the value with no request, response or error; decoder failure is `parsingJSON` |
| Client.DecodeOnlyCombine | Sources/NetworkingKit/APIClient/APIClient.swift:162-177 | no data is `noData`; decoder success gives the value with no metadata; decoder failure is `generic`, not `parsingJSON` |
| Client.RequestAsync | Sources/NetworkingKit/APIClient/APIClient.swift:87-105 | the async request only ever fails with `networkFailure` or `generic` |
| Client.RequestCombine | Sources/NetworkingKit/APIClient/APIClient.swift:133-155 | the publisher only ever fails with an `APIClientError` |
| Client.MockedRequestSkipsService | Sources/NetworkingKit/APIClient/APIClient.swift:93-95 | when mocked, the result does not depend on the network service and is the decode-only result for the fixture, as each shape wraps it |
| Client.LiveRequestCallsServiceOnce | Sources/NetworkingKit/APIClient/APIClient.swift:97-98 | a live request depends on the service only through its one answer for the endpoint, the encoded parameters and the method |
| Client.LiveAsyncOutcomes | Sources/NetworkingKit/APIClient/APIClient.swift:92-104 | a live async request gives `networkFailure(e)` for a transport `NetworkError` e, `generic(e)` for any other, `generic(parsingJSON(d))` for a decoder failure, and otherwise the decoded body with the transport's metadata |
| Client.LiveShapesAgree | Sources/NetworkingKit/APIClient/APIClient.swift:142-153 | for the same transport outcome, the live publisher gives exactly the async result |
| Client.MockedShapesDiffer | Sources/NetworkingKit/APIClient/APIClient.swift:138-140 | on the fixture path a missing fixture is `generic(noData)` in async but `noData` in Combine, and a decoder failure is `generic(parsingJSON(d))` against `generic(d)`; successes agree |
| Client.ShapesShareRootCause | Sources/NetworkingKit/APIClient/APIClient.swift:147-153 | for the same transport outcome both shapes fail together and report the same root cause |
| Client.TransportErrorIsRootCause | Sources/NetworkingKit/APIClient/APIClient.swift:100-104 | a transport failure stays the root cause of the async request's error |
| Envelope.IsSuccess | Sources/NetworkingKit/Example/DefaultNetworkResponse.swift:18-20 | a status is a success iff its raw value is "success" |
| Envelope.DecodeIfPresent | Sources/NetworkingKit/Example/DefaultNetworkResponse.swift:49-50 | an absent or null key gives nil; otherwise the value is decoded and its failure propagates |
| Envelope.DecodeStatus | Sources/NetworkingKit/Example/DefaultNetworkResponse.swift:11-15 | a status decodes iff it is the string "success" or "error", and then has that raw value |
| Envelope.DecodeResponseError | Sources/NetworkingKit/Example/DefaultNetworkResponse.swift:58-63 | an error object decodes iff it is an object whose title and message are each absent, null or a string; each is then nil when absent or null and otherwise that string |
| Envelope.DecodeEnvelope | Sources/NetworkingKit/Example/DefaultNetworkResponse.swift:46-51 | an envelope decodes iff it is an object with a valid status and data and error each decode if present; data and error are then nil exactly when absent or null, and otherwise decoded from their keys |
| Envelope.OnlyThreeKeysRead | Sources/NetworkingKit/Example/DefaultNetworkResponse.swift:36-40 | two objects that agree on status, data and error decode alike |
| Envelope.StatusRequired | Sources/NetworkingKit/Example/DefaultNetworkResponse.swift:48 | without a status of "success" or "error" the envelope does not decode |
| Envelope.SuccessEnvelope | Sources/NetworkingKit/Example/DefaultNetworkResponse.swift:46-51 | `{"status": "success", "data": d}` decodes to a success envelope with d decoded and no error |
| Manager.Unwrap | Sources/NetworkingKit/Example/APIClientManager.swift:44-60 | success iff status 200, an envelope is present and it says success, and then the envelope's data; otherwise `invalidResponse`, or `noData` exactly for a 200 without an envelope |
| Manager.StatusCheckedFirst | Sources/NetworkingKit/Example/APIClientManager.swift:45-47 | without a 200 status the result is `invalidResponse`, whatever the body |
| Manager.EnvelopeErrorDiscarded | Sources/NetworkingKit/Example/APIClientManager.swift:58-59 | the envelope's error details, the transport error and the request do not affect the result |
| Manager.RequestAsync | Sources/NetworkingKit/Example/APIClientManager.swift:31-65 | the client's errors are rethrown unchanged; a client success is unwrapped |
| Manager.AsClientError | Sources/NetworkingKit/Example/APIClientManager.swift:99-105 | an `APIClientError` passes unchanged; any other error becomes `generic` |
| Manager.RequestCombine | Sources/NetworkingKit/Example/APIClientManager.swift:74-107 | a client failure surfaces as the client's own error, so the `generic` fallback is never taken; a client success is unwrapped |
| Manager.ShapesAgreeWhenLive | Sources/NetworkingKit/Example/APIClientManager.swift:82-97 | for a live endpoint answered alike, both shapes give the same result |
| Manager.ShapesDifferWithoutFixture | Sources/NetworkingKit/Example/APIClientManager.swift:61-63 | for a mocked endpoint without a fixture, async gives `generic(noData)` and Combine gives `noData` |
| Manager.UnwrapNoDataUnreachable | Sources/NetworkingKit/Example/APIClientManager.swift:50-52 | the async request never fails with `noData`; the publisher does so only for a mocked endpoint without a fixture, so the unwrapper's own `noData` branch is never taken |
| Manager.EnvelopeOutcomes | Sources/NetworkingKit/Example/APIClientManager.swift:44-60 | for a live 200 response whose body decodes as an envelope, `{"status": "error"}` gives `invalidResponse` and `{"status": "success", "data": d}` gives d decoded, in both shapes |
| Manager.InitDefaults | Sources/NetworkingKit/Example/APIClientManager.swift:19-21 | the manager's client uses the default JSON manager and no mock data |

## Left out

- The concrete network service (Alamofire session, trust manager, URL error mapping) is not part of this model. The service is the abstract `perform` and `publish` pair.
- Reachability monitoring, request logging, the example `UserService` and the package manifest are left out. They are I/O, concurrency or build glue.
- The string-table lookup is left out. A localized string is its key. The rendered text is defined only relative to a lookup function.
- The platform's `localizedDescription` of an arbitrary Swift error is left out. It is the opaque `DescriptionOf` text.
- The JSON parser and encoder are left out, and so are snake-case key conversion and date formatting. They are platform internals and appear only as functions of their configuration.
- Date formatters are identified by their format string. Locale and time zone are the process's own.
- `URL(string:)` parsing is left out, and so is the slash normalisation of `appendingPathComponent`. A URL is a base string plus appended components.
- Foundation.AppendingPathComponent: does not model the percent-encoding of characters a path may not hold (space, `?`, `#`, ...); it appends the component as given.
- UserAPI.RequestURLs: the stated URLs are exact only for user ids that need no percent-encoding, for the same reason.
- Conformances may override `requestURL` and `asURLRequest`. The model fixes the protocol's default implementations.
- `asURLRequest` is declared `throws` but never throws. It is modelled as total.
- `HTTPHeaders` is reduced to its `dictionary` (a name-to-value map). Alamofire's ordering and case-insensitive names are not modelled.
- `TimeInterval` is modelled as an exact real, not floating point.
- Async suspension, Combine scheduling (delivery queue) and cancellation are left out. Each call produces exactly one result.
- `DecodingError` carries no coding path, and its messages are placeholders.
- Decoder failures are modelled as `DecodingError` only. A `Decodable` type's own `init(from:)` may throw any error; the model's decoder cannot.
- `JSONEncoder.KeyEncodingStrategy` has only its default and snake-case cases here. The `.custom` case is left out. So `toDictionary(dateFormat:keyEncodingStrategy:)` is modelled only for those two strategies.
- The key decoding strategy is not applied to the envelope's keys.
- The network service is generic in its response type. Only the raw-data instance the client uses is modelled.
- `JSONManager.encode` and `decode` are modelled as the plain delegation they are. Their only property is the configuration they use.
