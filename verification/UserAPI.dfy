/** `UserAPI`: the example endpoints for reading and updating a user. */
module UserAPI {
  import opened Wrappers
  import opened Foundation
  import APIRequest

  datatype UserAPI = FetchUserDetails(userId: string) | UpdateUserDetails(userId: string)

  const BaseURL: URL := URL("https://api.example.com", [])

  function Path(api: UserAPI): string
  {
    match api
    case FetchUserDetails(userId) => userId
    case UpdateUserDetails(userId) => userId + "/update"
  }

  const Headers: APIRequest.HTTPHeaders := map["Authorization" := "Bearer token", "Accept" := "application/json"]

  /** The conformance: base URL, version, path and headers; everything else is the protocol's default. */
  function Endpoint(api: UserAPI): (e: APIRequest.Endpoint)
    ensures e.baseURL == Some(URL("https://api.example.com", []))
    ensures e.apiVersion == "v1/users"
    ensures e.path == Path(api)
    ensures e.headers == map["Authorization" := "Bearer token", "Accept" := "application/json"]
  {
    APIRequest.Requestable(Some(BaseURL), "v1/users", Path(api), Headers)
  }

  /** Both endpoints go to the live service with the default timeout, and differ only in their path. */
  lemma UsesProtocolDefaults(api: UserAPI)
    ensures !Endpoint(api).isMocked && Endpoint(api).jsonData == None
    ensures Endpoint(api).jsonFile == "" && Endpoint(api).timeoutInterval == 60.0
    ensures Endpoint(api) == Endpoint(FetchUserDetails("")).(path := Path(api))
  {
  }

  /** The absolute URL of each endpoint. */
  lemma RequestURLs(userId: string)
    ensures AbsoluteString(APIRequest.RequestURL(Endpoint(FetchUserDetails(userId))))
      == "https://api.example.com/v1/users/" + userId
    ensures AbsoluteString(APIRequest.RequestURL(Endpoint(UpdateUserDetails(userId))))
      == "https://api.example.com/v1/users/" + userId + "/update"
  {
  }
}
