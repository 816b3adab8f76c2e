/**
 * The endpoint descriptor (`APIRequestable`): where a request goes, with
 * which headers and timeout, and whether a canned fixture replaces the
 * network. The protocol's default implementations are the defaults here.
 */
module APIRequest {
  import opened Wrappers
  import opened Foundation
  import HTTP

  /** Header fields as a name-to-value mapping (`HTTPHeaders.dictionary`). */
  type HTTPHeaders = map<string, string>

  datatype Endpoint = Endpoint(
    baseURL: Option<URL>,
    apiVersion: string,
    path: string,
    headers: HTTPHeaders,
    isMocked: bool,
    jsonFile: string,
    jsonData: Option<Bytes>,
    timeoutInterval: real)

  /**
   * A conforming type: the four requirements without a default, and the
   * four the protocol extension defaults unless the conformance overrides
   * them.
   */
  function Requestable(baseURL: Option<URL>, apiVersion: string, path: string, headers: HTTPHeaders,
                       isMocked: bool := false, jsonFile: string := "", jsonData: Option<Bytes> := None,
                       timeoutInterval: real := 60.0): Endpoint
  {
    Endpoint(baseURL, apiVersion, path, headers, isMocked, jsonFile, jsonData, timeoutInterval)
  }

  /** A conformance that overrides nothing is not mocked, has no fixture and waits 60 seconds. */
  lemma ProtocolDefaults(baseURL: Option<URL>, apiVersion: string, path: string, headers: HTTPHeaders)
    ensures var e := Requestable(baseURL, apiVersion, path, headers);
      !e.isMocked && e.jsonFile == "" && e.jsonData == None && e.timeoutInterval == 60.0
  {
  }

  /**
   * `requestURL`: the base URL, then the version, then the path. A missing
   * base URL is a fatal error in the source, so it is excluded here.
   */
  function RequestURL(e: Endpoint): (u: URL)
    requires e.baseURL.Some?
    ensures u.base == e.baseURL.value.base
    ensures u.pathComponents == e.baseURL.value.pathComponents + [e.apiVersion, e.path]
    ensures AbsoluteString(u) == AbsoluteString(e.baseURL.value) + "/" + e.apiVersion + "/" + e.path
  {
    AppendingPathComponent(AppendingPathComponent(e.baseURL.value, e.apiVersion), e.path)
  }

  /**
   * `asURLRequest(with:)`: a request for `requestURL` whose method, header
   * fields and timeout come from the endpoint and the method; the rest is
   * what `URLRequest(url:)` gives.
   */
  function AsURLRequest(e: Endpoint, httpMethod: HTTP.HTTPMethod): (r: URLRequest)
    requires e.baseURL.Some?
    ensures r.url == RequestURL(e)
    ensures HTTP.FromRawValue(r.httpMethod) == Some(httpMethod)
    ensures r.allHTTPHeaderFields == Some(e.headers)
    ensures r.timeoutInterval == e.timeoutInterval
    ensures r.httpBody == None
  {
    HTTP.RawValueRoundTrip(httpMethod);
    NewURLRequest(RequestURL(e)).(
      httpMethod := HTTP.RawValue(httpMethod),
      allHTTPHeaderFields := Some(e.headers),
      timeoutInterval := e.timeoutInterval)
  }
}
