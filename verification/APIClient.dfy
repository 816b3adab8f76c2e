/**
 * The API client: the fixture short-circuit, parameter encoding, one call
 * to the network service, response decoding, and the wrapping of every
 * failure into `APIClientError`, in its two shapes.
 *
 * The async shape suspends until one result is available; the Combine
 * shape is a publisher that emits one result. Both are modelled as total
 * functions returning that one result. They share the decode step and the
 * error classification, but not the way they wrap the client's own errors:
 *  - async: a catch-all around the whole body turns every error that is not
 *    a `NetworkError` into `generic`, including the client's own `noData`
 *    and `parsingJSON`;
 *  - Combine: the fixture path has no outer error mapping, and the
 *    decode-only publisher reports a decoder failure as `generic` rather
 *    than `parsingJSON`.
 */
module Client {
  import opened Wrappers
  import opened Foundation
  import opened Errors
  import HTTP
  import APIRequest
  import JSONCoding
  import EncodableExt

  /** `DataResponse<T>`: what a request produced, with whatever metadata the transport kept. */
  datatype DataResponse<T> = DataResponse(
    request: Option<URLRequest>,
    response: Option<HTTPURLResponse>,
    data: Option<T>,
    error: Option<AnyError>)

  /** The encoded parameters handed to the transport (`[String: Any]`). */
  type Parameters = map<string, Json>

  /** One transport call: it either produces the raw response or throws. */
  type Transport = (APIRequest.Endpoint, Option<Parameters>, HTTP.HTTPMethod) -> Result<DataResponse<Bytes>, AnyError>

  /** `NetworkServiceProtocol`: the async request (`perform`) and the publisher request (`publish`). */
  datatype NetworkService = NetworkService(perform: Transport, publish: Transport)

  datatype APIClient = APIClient(
    networkService: NetworkService,
    jsonManager: JSONCoding.JSONManager,
    useMockData: bool)

  /** `APIClient(with:jsonManager:useMockData:)` with its defaults. */
  function Init(networkService: NetworkService,
                jsonManager: JSONCoding.JSONManager := JSONCoding.Init(),
                useMockData: bool := false): APIClient
  {
    APIClient(networkService, jsonManager, useMockData)
  }

  /** The defaults of the initializer: the default JSON manager, live requests. */
  lemma InitDefaults(networkService: NetworkService)
    ensures Init(networkService).jsonManager == JSONCoding.Init()
    ensures Init(networkService).jsonManager.encoder.keyEncodingStrategy.ConvertToSnakeCase?
    ensures !Init(networkService).useMockData
  {
  }

  /** Whether a request is answered from the endpoint's fixture instead of the network. */
  predicate Mocked(c: APIClient, endpoint: APIRequest.Endpoint)
  {
    c.useMockData || endpoint.isMocked
  }

  /** An `APIClientError` seen as a plain Swift `Error`. */
  function Thrown<T>(r: Result<T, APIClientError>): Result<T, AnyError>
  {
    match r
    case Success(v) => Success(v)
    case Failure(e) => Failure(Client(e))
  }

  /**
   * The classification both shapes apply to an arbitrary error: a
   * `NetworkError` becomes `networkFailure` around that same error, and
   * anything else, the client's own errors included, becomes `generic`.
   */
  function WrapError(e: AnyError): (r: APIClientError)
    ensures e.Network? ==> r == NetworkFailure(e.network)
    ensures !e.Network? ==> r == APIClientError.Generic(e)
  {
    match e
    case Network(n) => NetworkFailure(n)
    case _ => APIClientError.Generic(e)
  }

  /** `encodeParameters`: no parameters give no payload; others go through `toDictionary` with the manager's encoder. */
  function EncodeParameters<P, R>(c: APIClient, coding: Coding<P, R>, parameters: Option<P>): (r: Option<Parameters>)
    ensures parameters.None? ==> r.None?
    ensures parameters.Some? ==>
      r == EncodableExt.ToDictionary(parameters.value, c.jsonManager.encoder, coding.encode, coding.jsonObject)
  {
    match parameters
    case None => None
    case Some(p) => EncodableExt.ToDictionary(p, c.jsonManager.encoder, coding.encode, coding.jsonObject)
  }

  /**
   * `decode(from:)`: the body (an absent body read as empty data) decoded
   * with the manager's decoder; the request, response and error are carried
   * over, and a decoder failure becomes `parsingJSON` around it.
   */
  function DecodeResponse<P, R>(c: APIClient, coding: Coding<P, R>, raw: DataResponse<Bytes>)
    : (r: Result<DataResponse<R>, APIClientError>)
    ensures var decoded := JSONCoding.Decode(c.jsonManager, raw.data.GetOr([]), coding.decode);
      && (r.Success? <==> decoded.Success?)
      && (r.Success? ==> r.value.data == Some(decoded.value))
      && (r.Success? ==> r.value.request == raw.request && r.value.response == raw.response && r.value.error == raw.error)
      && (r.Failure? ==> r.error == ParsingJSON(Decoding(decoded.error)))
  {
    match JSONCoding.Decode(c.jsonManager, raw.data.GetOr([]), coding.decode)
    case Success(v) => Success(WithData(raw, v))
    case Failure(d) => Failure(ParsingJSON(Decoding(d)))
  }

  /** A response with the same request, response and error as `raw`, and `value` as its data. */
  function WithData<T, U>(raw: DataResponse<T>, value: U): DataResponse<U>
  {
    DataResponse(raw.request, raw.response, Some(value), raw.error)
  }

  /** The response a decode-only request gives: the decoded value and no metadata. */
  function Bare<R>(value: R): DataResponse<R>
  {
    DataResponse(None, None, Some(value), None)
  }

  /** `request(_ data:)`, async: no data is `noData`; a decoder failure is `parsingJSON`. */
  function DecodeOnlyAsync<P, R>(c: APIClient, coding: Coding<P, R>, data: Option<Bytes>)
    : (r: Result<DataResponse<R>, APIClientError>)
    ensures data.None? ==> r == Failure(APIClientError.NoData)
    ensures data.Some? ==> var decoded := JSONCoding.Decode(c.jsonManager, data.value, coding.decode);
      && (r.Success? <==> decoded.Success?)
      && (r.Success? ==> r.value == Bare(decoded.value))
      && (r.Failure? ==> r.error == ParsingJSON(Decoding(decoded.error)))
  {
    match data
    case None => Failure(APIClientError.NoData)
    case Some(bytes) =>
      match JSONCoding.Decode(c.jsonManager, bytes, coding.decode)
      case Success(v) => Success(Bare(v))
      case Failure(d) => Failure(ParsingJSON(Decoding(d)))
  }

  /** `request(_ data:)`, Combine: no data is `noData`; a decoder failure is `generic`, never `parsingJSON`. */
  function DecodeOnlyCombine<P, R>(c: APIClient, coding: Coding<P, R>, data: Option<Bytes>)
    : (r: Result<DataResponse<R>, APIClientError>)
    ensures data.None? ==> r == Failure(APIClientError.NoData)
    ensures data.Some? ==> var decoded := JSONCoding.Decode(c.jsonManager, data.value, coding.decode);
      && (r.Success? <==> decoded.Success?)
      && (r.Success? ==> r.value == Bare(decoded.value))
      && (r.Failure? ==> r.error == APIClientError.Generic(Decoding(decoded.error)))
  {
    match data
    case None => Failure(APIClientError.NoData)
    case Some(bytes) =>
      match JSONCoding.Decode(c.jsonManager, bytes, coding.decode)
      case Success(v) => Success(Bare(v))
      case Failure(d) => Failure(APIClientError.Generic(Decoding(d)))
  }

  /** `request(for:with:method:)`, async: the whole body runs under one catch that applies `WrapError`. */
  function RequestAsync<P, R>(c: APIClient, coding: Coding<P, R>, endpoint: APIRequest.Endpoint,
                              parameters: Option<P>, httpMethod: HTTP.HTTPMethod)
    : (r: Result<DataResponse<R>, APIClientError>)
    ensures r.Failure? ==> r.error.NetworkFailure? || r.error.Generic?
  {
    var body: Result<DataResponse<R>, AnyError> :=
      if Mocked(c, endpoint) then
        Thrown(DecodeOnlyAsync(c, coding, endpoint.jsonData))
      else
        match c.networkService.perform(endpoint, EncodeParameters(c, coding, parameters), httpMethod)
        case Failure(e) => Failure(e)
        case Success(raw) => Thrown(DecodeResponse(c, coding, raw));
    match body
    case Success(v) => Success(v)
    case Failure(e) => Failure(WrapError(e))
  }

  /**
   * `request(for:with:method:)`, Combine: the fixture path is the
   * decode-only publisher as it is; the live path decodes and then applies
   * `WrapError` to whatever failed. The publisher's failure type is Swift's
   * `Error`, so the result's error is an `AnyError`.
   */
  function RequestCombine<P, R>(c: APIClient, coding: Coding<P, R>, endpoint: APIRequest.Endpoint,
                                parameters: Option<P>, httpMethod: HTTP.HTTPMethod)
    : (r: Result<DataResponse<R>, AnyError>)
    ensures r.Failure? ==> r.error.Client?
  {
    if Mocked(c, endpoint) then
      Thrown(DecodeOnlyCombine(c, coding, endpoint.jsonData))
    else
      var decoded: Result<DataResponse<R>, AnyError> :=
        match c.networkService.publish(endpoint, EncodeParameters(c, coding, parameters), httpMethod)
        case Failure(e) => Failure(e)
        case Success(raw) => Thrown(DecodeResponse(c, coding, raw));
      match decoded
      case Success(v) => Success(v)
      case Failure(e) => Failure(Client(WrapError(e)))
  }

  // ----------------------------------------------------------------- properties

  /**
   * With mock data or a mocked endpoint the network service is never used:
   * any two services give the same result, which is the decode-only result
   * for the fixture, wrapped as each shape wraps it.
   */
  lemma MockedRequestSkipsService<P, R>(c: APIClient, other: NetworkService, coding: Coding<P, R>,
                                        endpoint: APIRequest.Endpoint, parameters: Option<P>,
                                        httpMethod: HTTP.HTTPMethod)
    requires Mocked(c, endpoint)
    ensures RequestAsync(c, coding, endpoint, parameters, httpMethod)
      == RequestAsync(c.(networkService := other), coding, endpoint, parameters, httpMethod)
    ensures RequestCombine(c, coding, endpoint, parameters, httpMethod)
      == RequestCombine(c.(networkService := other), coding, endpoint, parameters, httpMethod)
    ensures RequestCombine(c, coding, endpoint, parameters, httpMethod)
      == Thrown(DecodeOnlyCombine(c, coding, endpoint.jsonData))
    ensures var d := DecodeOnlyAsync(c, coding, endpoint.jsonData);
      RequestAsync(c, coding, endpoint, parameters, httpMethod)
        == if d.Success? then Success(d.value) else Failure(APIClientError.Generic(Client(d.error)))
  {
  }

  /**
   * A live request consults the service exactly at the endpoint, the
   * encoded parameters and the method: two services that answer that one
   * call alike give the same result. There is no second attempt.
   */
  lemma LiveRequestCallsServiceOnce<P, R>(c: APIClient, other: NetworkService, coding: Coding<P, R>,
                                          endpoint: APIRequest.Endpoint, parameters: Option<P>,
                                          httpMethod: HTTP.HTTPMethod)
    requires !Mocked(c, endpoint)
    ensures var payload := EncodeParameters(c, coding, parameters);
      other.perform(endpoint, payload, httpMethod) == c.networkService.perform(endpoint, payload, httpMethod) ==>
        RequestAsync(c.(networkService := other), coding, endpoint, parameters, httpMethod)
          == RequestAsync(c, coding, endpoint, parameters, httpMethod)
    ensures var payload := EncodeParameters(c, coding, parameters);
      other.publish(endpoint, payload, httpMethod) == c.networkService.publish(endpoint, payload, httpMethod) ==>
        RequestCombine(c.(networkService := other), coding, endpoint, parameters, httpMethod)
          == RequestCombine(c, coding, endpoint, parameters, httpMethod)
  {
  }

  /**
   * The outcomes of a live async request: a transport `NetworkError` is
   * `networkFailure` around the same error, any other transport error is
   * `generic` around it, and a decoder failure surfaces as `generic` around
   * the client's own `parsingJSON`.
   */
  lemma LiveAsyncOutcomes<P, R>(c: APIClient, coding: Coding<P, R>, endpoint: APIRequest.Endpoint,
                                parameters: Option<P>, httpMethod: HTTP.HTTPMethod)
    requires !Mocked(c, endpoint)
    ensures var sent := c.networkService.perform(endpoint, EncodeParameters(c, coding, parameters), httpMethod);
      var r := RequestAsync(c, coding, endpoint, parameters, httpMethod);
      && (sent.Failure? && sent.error.Network? ==> r == Failure(NetworkFailure(sent.error.network)))
      && (sent.Failure? && !sent.error.Network? ==> r == Failure(APIClientError.Generic(sent.error)))
      && (sent.Success? ==>
            var decoded := JSONCoding.Decode(c.jsonManager, sent.value.data.GetOr([]), coding.decode);
            && (decoded.Success? ==> r == Success(WithData(sent.value, decoded.value)))
            && (decoded.Failure? ==> r == Failure(APIClientError.Generic(Client(ParsingJSON(Decoding(decoded.error)))))))
  {
  }

  /**
   * On the live path the two shapes agree: given the same transport
   * outcome, the publisher yields what the async call returns, the error
   * seen as a Swift `Error`.
   */
  lemma LiveShapesAgree<P, R>(c: APIClient, coding: Coding<P, R>, endpoint: APIRequest.Endpoint,
                              parameters: Option<P>, httpMethod: HTTP.HTTPMethod)
    requires !Mocked(c, endpoint)
    requires var payload := EncodeParameters(c, coding, parameters);
      c.networkService.publish(endpoint, payload, httpMethod) == c.networkService.perform(endpoint, payload, httpMethod)
    ensures RequestCombine(c, coding, endpoint, parameters, httpMethod)
      == Thrown(RequestAsync(c, coding, endpoint, parameters, httpMethod))
  {
  }

  /**
   * On the fixture path the shapes disagree on errors: a missing fixture is
   * `generic(noData)` from the async call but `noData` from the publisher,
   * and a decoder failure is `generic(parsingJSON(e))` against `generic(e)`.
   */
  lemma MockedShapesDiffer<P, R>(c: APIClient, coding: Coding<P, R>, endpoint: APIRequest.Endpoint,
                                 parameters: Option<P>, httpMethod: HTTP.HTTPMethod)
    requires Mocked(c, endpoint)
    ensures endpoint.jsonData.None? ==>
      && RequestAsync(c, coding, endpoint, parameters, httpMethod)
           == Failure(APIClientError.Generic(Client(APIClientError.NoData)))
      && RequestCombine(c, coding, endpoint, parameters, httpMethod) == Failure(Client(APIClientError.NoData))
    ensures endpoint.jsonData.Some? ==>
      var decoded := JSONCoding.Decode(c.jsonManager, endpoint.jsonData.value, coding.decode);
      && (decoded.Failure? ==>
            && RequestAsync(c, coding, endpoint, parameters, httpMethod)
                 == Failure(APIClientError.Generic(Client(ParsingJSON(Decoding(decoded.error)))))
            && RequestCombine(c, coding, endpoint, parameters, httpMethod)
                 == Failure(Client(APIClientError.Generic(Decoding(decoded.error)))))
      && (decoded.Success? ==>
            && RequestAsync(c, coding, endpoint, parameters, httpMethod) == Success(Bare(decoded.value))
            && RequestCombine(c, coding, endpoint, parameters, httpMethod) == Success(Bare(decoded.value)))
  {
  }

  /**
   * However the two shapes wrap a failure, they report the same root cause
   * when they see the same transport outcome: wrapping adds layers and never
   * replaces the underlying error.
   */
  lemma ShapesShareRootCause<P, R>(c: APIClient, coding: Coding<P, R>, endpoint: APIRequest.Endpoint,
                                   parameters: Option<P>, httpMethod: HTTP.HTTPMethod)
    requires var payload := EncodeParameters(c, coding, parameters);
      c.networkService.publish(endpoint, payload, httpMethod) == c.networkService.perform(endpoint, payload, httpMethod)
    ensures var a := RequestAsync(c, coding, endpoint, parameters, httpMethod);
      var b := RequestCombine(c, coding, endpoint, parameters, httpMethod);
      a.Failure? == b.Failure? && (a.Failure? ==> RootCause(Client(a.error)) == RootCause(b.error))
  {
    if Mocked(c, endpoint) {
      MockedShapesDiffer(c, coding, endpoint, parameters, httpMethod);
    } else {
      LiveShapesAgree(c, coding, endpoint, parameters, httpMethod);
    }
  }

  /** A transport failure stays the root cause of what the async call reports. */
  lemma TransportErrorIsRootCause<P, R>(c: APIClient, coding: Coding<P, R>, endpoint: APIRequest.Endpoint,
                                        parameters: Option<P>, httpMethod: HTTP.HTTPMethod)
    requires !Mocked(c, endpoint)
    requires c.networkService.perform(endpoint, EncodeParameters(c, coding, parameters), httpMethod).Failure?
    ensures var e := c.networkService.perform(endpoint, EncodeParameters(c, coding, parameters), httpMethod).error;
      RootCause(Client(RequestAsync(c, coding, endpoint, parameters, httpMethod).error)) == RootCause(e)
  {
  }

  /**
   * Every successful response the client hands back carries decoded data,
   * in both shapes and on both paths: a response with `data == nil` never
   * leaves the client as a success.
   */
  lemma SuccessCarriesData<P, R>(c: APIClient, coding: Coding<P, R>, endpoint: APIRequest.Endpoint,
                                 parameters: Option<P>, httpMethod: HTTP.HTTPMethod)
    ensures var r := RequestAsync(c, coding, endpoint, parameters, httpMethod);
      r.Success? ==> r.value.data.Some?
    ensures var r := RequestCombine(c, coding, endpoint, parameters, httpMethod);
      r.Success? ==> r.value.data.Some?
  {
  }

  /**
   * Without parameters the transport is called with no payload. A value
   * whose encoding fails, or is not a JSON object, is sent with no payload
   * too: the request is not failed.
   */
  lemma UnencodableParametersSendNoPayload<P, R>(c: APIClient, coding: Coding<P, R>, parameters: Option<P>)
    ensures parameters.None? ==> EncodeParameters(c, coding, parameters).None?
    ensures parameters.Some? && coding.encode(c.jsonManager.encoder, parameters.value).Failure? ==>
      EncodeParameters(c, coding, parameters).None?
  {
  }
}
