/**
 * `APIClientManager`: requests whose body is a `{status, data, error}`
 * envelope, unwrapped after the client has decoded it. The checks come in
 * a fixed order: the HTTP status code must be 200, then an envelope must
 * be present, then its status decides between the payload and
 * `invalidResponse`.
 */
module Manager {
  import opened Wrappers
  import opened Foundation
  import opened Errors
  import HTTP
  import APIRequest
  import Client
  import Envelope
  import JSONCoding

  datatype APIClientManager = APIClientManager(apiClient: Client.APIClient)

  /** `APIClientManager()`: a client over the given service with the default JSON manager and no mock data. */
  function Init(networkService: Client.NetworkService): APIClientManager
  {
    APIClientManager(Client.Init(networkService))
  }

  type EnvelopeResponse<T> = Client.DataResponse<Envelope.DefaultNetworkResponse<T>>

  /** Whether the transport reported HTTP status 200; a missing response is not 200. */
  predicate StatusOK<T>(response: EnvelopeResponse<T>)
  {
    response.response.Some? && response.response.value.statusCode == 200
  }

  /**
   * The three checks both request shapes apply to a decoded response: the
   * payload (possibly nil) of a 200 response whose envelope says success;
   * `invalidResponse` for another status code or an envelope that says
   * error; `noData` for a 200 response without an envelope.
   */
  function Unwrap<T>(response: EnvelopeResponse<T>): (r: Result<Option<T>, APIClientError>)
    ensures r.Success? <==> StatusOK(response) && response.data.Some? && Envelope.IsSuccess(response.data.value.status)
    ensures r.Success? ==> r.value == response.data.value.data
    ensures r.Failure? ==> r.error == APIClientError.InvalidResponse || r.error == APIClientError.NoData
    ensures r == Failure(APIClientError.NoData) <==> StatusOK(response) && response.data.None?
  {
    if !StatusOK(response) then Failure(APIClientError.InvalidResponse)
    else if response.data.None? then Failure(APIClientError.NoData)
    else
      match response.data.value.status
      case Success => Success(response.data.value.data)
      case Error => Failure(APIClientError.InvalidResponse)
  }

  /** The status code is checked before the body: without a 200 the envelope is never looked at. */
  lemma StatusCheckedFirst<T>(response: EnvelopeResponse<T>, other: Option<Envelope.DefaultNetworkResponse<T>>)
    requires !StatusOK(response)
    ensures Unwrap(response) == Unwrap(response.(data := other)) == Failure(APIClientError.InvalidResponse)
  {
  }

  /**
   * The envelope's error title and message, the transport's error and the
   * request are not consulted: an error envelope is `invalidResponse`
   * whatever it says.
   */
  lemma EnvelopeErrorDiscarded<T>(response: EnvelopeResponse<T>, other: Option<Envelope.ResponseError>,
                                  otherError: Option<AnyError>, otherRequest: Option<URLRequest>)
    requires response.data.Some?
    ensures Unwrap(response)
      == Unwrap(response.(data := Some(response.data.value.(error := other)), error := otherError, request := otherRequest))
  {
  }

  /** `request(for:with:method:)`, async: the client's errors are rethrown unchanged. */
  function RequestAsync<P, T>(m: APIClientManager, coding: Coding<P, Envelope.DefaultNetworkResponse<T>>,
                              endpoint: APIRequest.Endpoint, parameters: Option<P>, httpMethod: HTTP.HTTPMethod)
    : (r: Result<Option<T>, APIClientError>)
    ensures var sent := Client.RequestAsync(m.apiClient, coding, endpoint, parameters, httpMethod);
      && (sent.Failure? ==> r == Failure(sent.error))
      && (sent.Success? ==> r == Unwrap(sent.value))
  {
    match Client.RequestAsync(m.apiClient, coding, endpoint, parameters, httpMethod)
    case Failure(e) => Failure(e)
    case Success(response) => Unwrap(response)
  }

  /** The publisher's `mapError`: an `APIClientError` passes unchanged, any other error becomes `generic`. */
  function AsClientError(e: AnyError): (r: APIClientError)
    ensures e.Client? ==> r == e.client
    ensures !e.Client? ==> r == APIClientError.Generic(e)
  {
    match e
    case Client(c) => c
    case _ => APIClientError.Generic(e)
  }

  /** `request(for:with:method:)`, Combine: the same checks, then `AsClientError` on any failure. */
  function RequestCombine<P, T>(m: APIClientManager, coding: Coding<P, Envelope.DefaultNetworkResponse<T>>,
                                endpoint: APIRequest.Endpoint, parameters: Option<P>, httpMethod: HTTP.HTTPMethod)
    : (r: Result<Option<T>, APIClientError>)
    ensures var sent := Client.RequestCombine(m.apiClient, coding, endpoint, parameters, httpMethod);
      && (sent.Failure? ==> r == Failure(sent.error.client))
      && (sent.Success? ==> r == Unwrap(sent.value))
  {
    match Client.RequestCombine(m.apiClient, coding, endpoint, parameters, httpMethod)
    case Failure(e) => Failure(AsClientError(e))
    case Success(response) =>
      match Unwrap(response)
      case Success(v) => Success(v)
      case Failure(c) => Failure(AsClientError(Client(c)))
  }

  /**
   * For a live endpoint whose service answers both shapes alike, the two
   * manager requests give the same result: same checks, same order, same
   * errors.
   */
  lemma ShapesAgreeWhenLive<P, T>(m: APIClientManager, coding: Coding<P, Envelope.DefaultNetworkResponse<T>>,
                                  endpoint: APIRequest.Endpoint, parameters: Option<P>, httpMethod: HTTP.HTTPMethod)
    requires !Client.Mocked(m.apiClient, endpoint)
    requires var payload := Client.EncodeParameters(m.apiClient, coding, parameters);
      m.apiClient.networkService.publish(endpoint, payload, httpMethod)
        == m.apiClient.networkService.perform(endpoint, payload, httpMethod)
    ensures RequestAsync(m, coding, endpoint, parameters, httpMethod)
      == RequestCombine(m, coding, endpoint, parameters, httpMethod)
  {
    Client.LiveShapesAgree(m.apiClient, coding, endpoint, parameters, httpMethod);
  }

  /** For a mocked endpoint without a fixture the two shapes disagree: `generic(noData)` against `noData`. */
  lemma ShapesDifferWithoutFixture<P, T>(m: APIClientManager, coding: Coding<P, Envelope.DefaultNetworkResponse<T>>,
                                         endpoint: APIRequest.Endpoint, parameters: Option<P>,
                                         httpMethod: HTTP.HTTPMethod)
    requires Client.Mocked(m.apiClient, endpoint) && endpoint.jsonData.None?
    ensures RequestAsync(m, coding, endpoint, parameters, httpMethod)
      == Failure(APIClientError.Generic(Client(APIClientError.NoData)))
    ensures RequestCombine(m, coding, endpoint, parameters, httpMethod) == Failure(APIClientError.NoData)
  {
    Client.MockedShapesDiffer(m.apiClient, coding, endpoint, parameters, httpMethod);
  }

  /**
   * The `noData` check of the unwrapper is never what fails a request,
   * because the client's successes always carry data. The async request
   * never fails with `noData`; the publisher does so only when the
   * client's own fixture path has no fixture.
   */
  lemma UnwrapNoDataUnreachable<P, T>(m: APIClientManager, coding: Coding<P, Envelope.DefaultNetworkResponse<T>>,
                                      endpoint: APIRequest.Endpoint, parameters: Option<P>, httpMethod: HTTP.HTTPMethod)
    ensures RequestAsync(m, coding, endpoint, parameters, httpMethod) != Failure(APIClientError.NoData)
    ensures RequestCombine(m, coding, endpoint, parameters, httpMethod) == Failure(APIClientError.NoData) ==>
      Client.Mocked(m.apiClient, endpoint) && endpoint.jsonData.None?
  {
    Client.SuccessCarriesData(m.apiClient, coding, endpoint, parameters, httpMethod);
    if Client.Mocked(m.apiClient, endpoint) {
      Client.MockedShapesDiffer(m.apiClient, coding, endpoint, parameters, httpMethod);
    } else {
      Client.LiveAsyncOutcomes(m.apiClient, coding, endpoint, parameters, httpMethod);
    }
  }

  /**
   * End to end, for a live endpoint whose 200 response body decodes as an
   * envelope: `{"status": "error"}` is `invalidResponse`, and
   * `{"status": "success", "data": d}` is `d` decoded, in both shapes.
   */
  lemma EnvelopeOutcomes<P, T>(m: APIClientManager, coding: Coding<P, Envelope.DefaultNetworkResponse<T>>,
                               endpoint: APIRequest.Endpoint, parameters: Option<P>, httpMethod: HTTP.HTTPMethod,
                               raw: Client.DataResponse<Bytes>, body: Json, decodeData: Json -> Result<T, DecodingError>)
    requires !Client.Mocked(m.apiClient, endpoint)
    requires var payload := Client.EncodeParameters(m.apiClient, coding, parameters);
      && m.apiClient.networkService.perform(endpoint, payload, httpMethod) == Success(raw)
      && m.apiClient.networkService.publish(endpoint, payload, httpMethod) == Success(raw)
    requires raw.response == Some(HTTPURLResponse(200))
    requires JSONCoding.Decode(m.apiClient.jsonManager, raw.data.GetOr([]), coding.decode)
      == Envelope.DecodeEnvelope(body, decodeData)
    ensures body == JObject(map["status" := JString("error")]) ==>
      && RequestAsync(m, coding, endpoint, parameters, httpMethod) == Failure(APIClientError.InvalidResponse)
      && RequestCombine(m, coding, endpoint, parameters, httpMethod) == Failure(APIClientError.InvalidResponse)
    ensures forall d: Json, v: T ::
      (d != JNull && decodeData(d) == Success(v) && body == JObject(map["status" := JString("success"), "data" := d])) ==>
        && RequestAsync(m, coding, endpoint, parameters, httpMethod) == Success(Some(v))
        && RequestCombine(m, coding, endpoint, parameters, httpMethod) == Success(Some(v))
  {
    var fields := map["status" := JString("error")];
    if body == JObject(fields) {
      assert "data" !in fields && "error" !in fields;
    }
    forall d: Json, v: T | d != JNull && decodeData(d) == Success(v) &&
      body == JObject(map["status" := JString("success"), "data" := d])
      ensures RequestAsync(m, coding, endpoint, parameters, httpMethod) == Success(Some(v))
      ensures RequestCombine(m, coding, endpoint, parameters, httpMethod) == Success(Some(v))
    {
      Envelope.SuccessEnvelope(d, v, decodeData);
    }
    Client.LiveAsyncOutcomes(m.apiClient, coding, endpoint, parameters, httpMethod);
    Client.LiveShapesAgree(m.apiClient, coding, endpoint, parameters, httpMethod);
  }

  /** The manager's own client is live and uses the default JSON configuration. */
  lemma InitDefaults(networkService: Client.NetworkService)
    ensures !Client.Mocked(Init(networkService).apiClient, APIRequest.Requestable(None, "", "", map[]))
    ensures Init(networkService).apiClient.jsonManager == JSONCoding.Init()
  {
  }
}
