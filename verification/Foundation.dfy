/**
 * The platform types the request pipeline is written against, stated
 * abstractly: raw bytes, the JSON value `JSONSerialization` produces, the
 * coder configurations, the errors the coders throw, and the URL records.
 * The coders themselves (the JSON parser, the key-case conversion, date
 * formatting) are not visible and enter the model as the functions of a
 * `Coding` record.
 */
module Foundation {
  import opened Wrappers

  /** Swift's `Data`. */
  type Bytes = seq<bv8>

  /** A JSON value as `JSONSerialization.jsonObject` returns it. */
  datatype Json =
    | JNull
    | JBool(b: bool)
    | JNumber(n: real)
    | JString(s: string)
    | JArray(items: seq<Json>)
    | JObject(fields: map<string, Json>)

  /** The cases of Swift's `DecodingError`. */
  datatype DecodingError =
    | TypeMismatch(expected: string)
    | ValueNotFound(expected: string)
    | KeyNotFound(key: string)
    | DataCorrupted(reason: string)

  /** Swift's `EncodingError`. */
  datatype EncodingError = InvalidValue(reason: string)

  /** `DateFormatter` with its `dateFormat`; locale and time zone are the process's current ones. */
  datatype DateFormatter = DateFormatter(dateFormat: string)

  datatype KeyEncodingStrategy = UseDefaultKeys | ConvertToSnakeCase
  datatype KeyDecodingStrategy = UseDefaultKeys | ConvertFromSnakeCase

  datatype DateEncodingStrategy = DeferredToDate | Formatted(formatter: DateFormatter)
  datatype DateDecodingStrategy = DeferredToDate | Formatted(formatter: DateFormatter)

  /** The configuration of a `JSONEncoder`. */
  datatype JSONEncoder = JSONEncoder(
    keyEncodingStrategy: KeyEncodingStrategy,
    dateEncodingStrategy: DateEncodingStrategy)

  /** The configuration of a `JSONDecoder`. */
  datatype JSONDecoder = JSONDecoder(
    keyDecodingStrategy: KeyDecodingStrategy,
    dateDecodingStrategy: DateDecodingStrategy)

  /** `JSONEncoder()`: verbatim keys, dates deferred to `Date`'s own encoding. */
  function NewEncoder(): JSONEncoder
  {
    JSONEncoder(KeyEncodingStrategy.UseDefaultKeys, DateEncodingStrategy.DeferredToDate)
  }

  /** `JSONDecoder()`: verbatim keys, dates deferred to `Date`'s own decoding. */
  function NewDecoder(): JSONDecoder
  {
    JSONDecoder(KeyDecodingStrategy.UseDefaultKeys, DateDecodingStrategy.DeferredToDate)
  }

  /**
   * How the platform encodes a parameter type `P` and decodes a response
   * type `R`: `JSONEncoder.encode`, `JSONSerialization.jsonObject` with
   * `.allowFragments` under `try?`, and `JSONDecoder.decode`.
   */
  datatype Coding<!P, R> = Coding(
    encode: (JSONEncoder, P) -> Result<Bytes, EncodingError>,
    jsonObject: Bytes -> Option<Json>,
    decode: (JSONDecoder, Bytes) -> Result<R, DecodingError>)

  /** A URL: its scheme-and-host prefix and the path components appended to it. */
  datatype URL = URL(base: string, pathComponents: seq<string>)

  /** The path part of a URL, each component preceded by a slash. */
  function Joined(components: seq<string>): string
  {
    if components == [] then "" else "/" + components[0] + Joined(components[1..])
  }

  function AbsoluteString(u: URL): string
  {
    u.base + Joined(u.pathComponents)
  }

  /** `URL.appendingPathComponent`, without the platform's slash normalisation. */
  function AppendingPathComponent(u: URL, component: string): (r: URL)
    ensures r.base == u.base
    ensures AbsoluteString(r) == AbsoluteString(u) + "/" + component
  {
    JoinedAppend(u.pathComponents, component);
    u.(pathComponents := u.pathComponents + [component])
  }

  lemma {:induction false} JoinedAppend(components: seq<string>, component: string)
    ensures Joined(components + [component]) == Joined(components) + "/" + component
  {
    if components != [] {
      calc {
        Joined(components + [component]);
        { assert (components + [component])[1..] == components[1..] + [component]; }
        "/" + components[0] + Joined(components[1..] + [component]);
        { JoinedAppend(components[1..], component); }
        "/" + components[0] + Joined(components[1..]) + "/" + component;
      }
    }
  }

  /** The fields of `URLRequest` the pipeline reads or writes. */
  datatype URLRequest = URLRequest(
    url: URL,
    httpMethod: string,
    allHTTPHeaderFields: Option<map<string, string>>,
    timeoutInterval: real,
    httpBody: Option<Bytes>)

  /** `URLRequest(url:)`: method GET, no header fields, a 60-second timeout, no body. */
  function NewURLRequest(url: URL): URLRequest
  {
    URLRequest(url, "GET", None, 60.0, None)
  }

  /** `HTTPURLResponse`, reduced to its status code. */
  datatype HTTPURLResponse = HTTPURLResponse(statusCode: int)
}
