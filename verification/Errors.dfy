/**
 * The two error taxonomies of the pipeline, the Swift `Error` values they
 * carry as causes, and their localized titles and descriptions.
 *
 * `NetworkError` is what the transport throws, `APIClientError` what the
 * client throws; `AnyError` is Swift's `Error` existential, which may hold
 * either of them, a coder error, or an error of a type outside the core.
 * A localized string is a `Text`: a key of the string table, a literal,
 * the platform's description of an error, or the interpolation
 * "\(head): \(detail)".
 */
module Errors {
  import opened Wrappers
  import opened Foundation
  import L10n

  datatype AnyError =
    | Network(network: NetworkError)
    | Client(client: APIClientError)
    | Decoding(decoding: DecodingError)
    | Encoding(encoding: EncodingError)
    | Other(typeName: string)

  datatype NetworkError =
    | ServerError(data: Option<Bytes>, statusCode: int)
    | NotConnected
    | Cancelled
    | Generic(cause: AnyError)
    | UrlGeneration
    | NotFound
    | NoData
    | InvalidResponse
    | BadResponse(message: Option<string>)

  datatype APIClientError =
    | ParsingJSON(cause: AnyError)
    | NetworkFailure(error: NetworkError)
    | Generic(cause: AnyError)
    | NoData
    | InvalidResponse

  datatype Text =
    | Localized(key: string)
    | Verbatim(s: string)
    | DescriptionOf(error: AnyError)
    | Labelled(head: Text, detail: Text)

  /**
   * The string a text stands for, given the string table (`lookup`) and the
   * platform's `localizedDescription` of an arbitrary error (`describe`).
   */
  function Render(t: Text, lookup: string -> string, describe: AnyError -> string): string
  {
    match t
    case Localized(key) => lookup(key)
    case Verbatim(s) => s
    case DescriptionOf(e) => describe(e)
    case Labelled(head, detail) => Render(head, lookup, describe) + ": " + Render(detail, lookup, describe)
  }

  // ---------------------------------------------------------------- NetworkError

  /** `NetworkError.localizedTitle`: never nil, always a key of the string table. */
  function NetworkErrorTitle(e: NetworkError): (t: Option<Text>)
    ensures t.Some? && t.value.Localized?
  {
    match e
    case ServerError(_, _) => Some(Localized(L10n.NetworkErrorErrorTitle))
    case NotConnected => Some(Localized(L10n.NetworkErrorNotConnectedTitle))
    case Cancelled => Some(Localized(L10n.NetworkErrorCancelledTitle))
    case Generic(_) => Some(Localized(L10n.Error))
    case UrlGeneration => Some(Localized(L10n.NetworkErrorUrlGenerationTitle))
    case NotFound => Some(Localized(L10n.NetworkErrorNotFoundTitle))
    case NoData => Some(Localized(L10n.NetworkErrorNoDataTitle))
    case InvalidResponse => Some(Localized(L10n.NetworkErrorInvalidResponseTitle))
    case BadResponse(_) => Some(Localized(L10n.NetworkErrorBadResponseTitle))
  }

  /**
   * `NetworkError.localizedDescription`: a key of the string table, except
   * that `generic` prefixes its cause's description and `badResponse`
   * prefers its own message.
   */
  function NetworkErrorDescription(e: NetworkError): (t: Text)
    ensures t.Localized? <==> !e.Generic? && !(e.BadResponse? && e.message.Some?)
  {
    match e
    case ServerError(_, _) => Localized(L10n.NetworkErrorErrorDescription)
    case NotConnected => Localized(L10n.NetworkErrorNotConnectedDescription)
    case Cancelled => Localized(L10n.NetworkErrorCancelledDescription)
    case Generic(cause) => Labelled(Localized(L10n.AnErrorOccured), DescriptionOf(cause))
    case UrlGeneration => Localized(L10n.NetworkErrorUrlGenerationDescription)
    case NotFound => Localized(L10n.NetworkErrorNotFoundDescription)
    case NoData => Localized(L10n.NetworkErrorNoDataDescription)
    case InvalidResponse => Localized(L10n.NetworkErrorInvalidResponseDescription)
    case BadResponse(message) => if message.Some? then Verbatim(message.value) else Localized(L10n.NetworkErrorBadResponseDescription)
  }

  /** Whether two transport errors are of the same case, payloads aside. */
  predicate SameCase(a: NetworkError, b: NetworkError)
  {
    && a.ServerError? == b.ServerError?
    && a.NotConnected? == b.NotConnected?
    && a.Cancelled? == b.Cancelled?
    && a.Generic? == b.Generic?
    && a.UrlGeneration? == b.UrlGeneration?
    && a.NotFound? == b.NotFound?
    && a.NoData? == b.NoData?
    && a.InvalidResponse? == b.InvalidResponse?
    && a.BadResponse? == b.BadResponse?
  }

  /**
   * Title keys tell the cases apart: each case has its own key (`generic`
   * the shared "error" one), and `serverError` ignores its body and code.
   * This is about keys: two keys may still be translated to the same text.
   */
  lemma NetworkTitlesDistinguishCases(a: NetworkError, b: NetworkError)
    ensures NetworkErrorTitle(a) == NetworkErrorTitle(b) <==> SameCase(a, b)
  {
  }

  /** `serverError` is titled and described by the general error entries, whatever its body and status code. */
  lemma ServerErrorText(data: Option<Bytes>, statusCode: int)
    ensures NetworkErrorTitle(ServerError(data, statusCode)) == Some(Localized(L10n.NetworkErrorErrorTitle))
    ensures NetworkErrorDescription(ServerError(data, statusCode)) == Localized(L10n.NetworkErrorErrorDescription)
  {
  }

  /** `generic` is titled "error" and described as "an error occurred: <the cause's description>". */
  lemma NetworkGenericText(cause: AnyError, lookup: string -> string, describe: AnyError -> string)
    ensures NetworkErrorTitle(NetworkError.Generic(cause)) == Some(Localized(L10n.Error))
    ensures Render(NetworkErrorDescription(NetworkError.Generic(cause)), lookup, describe)
      == lookup(L10n.AnErrorOccured) + ": " + describe(cause)
  {
  }

  /** `badResponse` shows its message when it has one, whatever the localization; otherwise its default text. */
  lemma BadResponseText(message: Option<string>, lookup: string -> string, describe: AnyError -> string)
    ensures message.Some? ==> Render(NetworkErrorDescription(BadResponse(message)), lookup, describe) == message.value
    ensures message.None? ==>
      Render(NetworkErrorDescription(BadResponse(message)), lookup, describe) == lookup(L10n.NetworkErrorBadResponseDescription)
  {
  }

  // -------------------------------------------------------------- APIClientError

  /** `APIClientError.localizedTitle`: never nil, always a key of the string table. */
  function ClientErrorTitle(e: APIClientError): (t: Option<Text>)
    ensures t.Some? && t.value.Localized?
  {
    match e
    case ParsingJSON(_) => Some(Localized(L10n.ApiClientErrorParsingJsonTitle))
    case NetworkFailure(error) => NetworkErrorTitle(error)
    case Generic(_) => Some(Localized(L10n.Error))
    case NoData => Some(Localized(L10n.ApiClientErrorNoDataTitle))
    case InvalidResponse => Some(Localized(L10n.ApiClientErrorNoValidResponseTitle))
  }

  /** `APIClientError.localizedDescription`: only a wrapped `NetworkError` can contribute anything but a fixed key. */
  function ClientErrorDescription(e: APIClientError): (t: Text)
    ensures !e.NetworkFailure? ==> t.Localized?
  {
    match e
    case ParsingJSON(_) => Localized(L10n.ApiClientErrorParsingJsonDescription)
    case NetworkFailure(error) => NetworkErrorDescription(error)
    case Generic(_) => Localized(L10n.AnErrorOccured)
    case NoData => Localized(L10n.ApiClientErrorNoDataDescription)
    case InvalidResponse => Localized(L10n.ApiClientErrorNoValidResponseDescription)
  }

  /** `networkFailure` shows exactly the title and description of the error it wraps. */
  lemma NetworkFailureDelegates(error: NetworkError)
    ensures ClientErrorTitle(NetworkFailure(error)) == NetworkErrorTitle(error)
    ensures ClientErrorDescription(NetworkFailure(error)) == NetworkErrorDescription(error)
  {
  }

  /**
   * The texts of `parsingJSON` and `generic` do not depend on their cause;
   * `generic` shares its title with the transport's `generic` but, unlike
   * it, does not mention its cause.
   */
  lemma ClientTextsIgnoreCause(c1: AnyError, c2: AnyError)
    ensures ClientErrorTitle(ParsingJSON(c1)) == ClientErrorTitle(ParsingJSON(c2))
    ensures ClientErrorDescription(ParsingJSON(c1)) == ClientErrorDescription(ParsingJSON(c2))
    ensures ClientErrorTitle(APIClientError.Generic(c1)) == ClientErrorTitle(APIClientError.Generic(c2))
      == NetworkErrorTitle(NetworkError.Generic(c1)) == Some(Localized(L10n.Error))
    ensures ClientErrorDescription(APIClientError.Generic(c1)) == Localized(L10n.AnErrorOccured)
  {
  }

  /** `invalidResponse` is worded with the "no valid response" entry, not the "invalid response" one. */
  lemma InvalidResponseWording()
    ensures ClientErrorTitle(APIClientError.InvalidResponse) == Some(Localized(L10n.ApiClientErrorNoValidResponseTitle))
    ensures ClientErrorTitle(APIClientError.InvalidResponse) != Some(Localized(L10n.ApiClientErrorInvalidResponseTitle))
    ensures ClientErrorDescription(APIClientError.InvalidResponse) == Localized(L10n.ApiClientErrorNoValidResponseDescription)
    ensures ClientErrorDescription(APIClientError.InvalidResponse) != Localized(L10n.ApiClientErrorInvalidResponseDescription)
  {
  }

  // ------------------------------------------------------------------ root causes

  /** An error that wraps no other error of the two taxonomies. */
  predicate IsRoot(e: AnyError)
  {
    match e
    case Client(ParsingJSON(_)) => false
    case Client(Generic(_)) => false
    case Client(NetworkFailure(_)) => false
    case Network(Generic(_)) => false
    case _ => true
  }

  /** The error at the end of the chain of causes. */
  function RootCause(e: AnyError): AnyError
    decreases e
  {
    match e
    case Client(ParsingJSON(c)) => RootCause(c)
    case Client(Generic(c)) => RootCause(c)
    case Client(NetworkFailure(n)) => NetworkRootCause(n)
    case Network(n) => NetworkRootCause(n)
    case _ => e
  }

  function NetworkRootCause(n: NetworkError): AnyError
    decreases n
  {
    match n
    case Generic(c) => RootCause(c)
    case _ => Network(n)
  }

  /** Unwrapping stops at an error that wraps nothing, and an error that wraps nothing is its own root. */
  lemma {:induction false} RootCauseIsRoot(e: AnyError)
    ensures IsRoot(RootCause(e))
    ensures IsRoot(e) ==> RootCause(e) == e
    decreases e
  {
    match e
    case Client(ParsingJSON(c)) => RootCauseIsRoot(c);
    case Client(Generic(c)) => RootCauseIsRoot(c);
    case Client(NetworkFailure(n)) => NetworkRootCauseIsRoot(n);
    case Network(n) => NetworkRootCauseIsRoot(n);
    case _ =>
  }

  lemma {:induction false} NetworkRootCauseIsRoot(n: NetworkError)
    ensures IsRoot(NetworkRootCause(n))
    decreases n
  {
    match n
    case Generic(c) => RootCauseIsRoot(c);
    case _ =>
  }
}
