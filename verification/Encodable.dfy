/** The `Encodable.toDictionary` extension: a value as the key/value mapping of its JSON object. */
module EncodableExt {
  import opened Wrappers
  import opened Foundation
  import JSONCoding

  /**
   * `toDictionary(with:)`: nil when the encoder throws or when the encoded
   * JSON is not an object at top level (a fragment such as a string, a
   * number or an array); otherwise the object's fields.
   */
  function ToDictionary<P>(value: P, encoder: JSONEncoder,
                           encode: (JSONEncoder, P) -> Result<Bytes, EncodingError>,
                           jsonObject: Bytes -> Option<Json>): (r: Option<map<string, Json>>)
    ensures encode(encoder, value).Failure? ==> r.None?
    ensures encode(encoder, value).Success? ==>
      var parsed := jsonObject(encode(encoder, value).value);
      (r.Some? <==> parsed.Some? && parsed.value.JObject?) &&
      (r.Some? ==> r.value == parsed.value.fields)
  {
    match encode(encoder, value)
    case Failure(_) => None
    case Success(encoded) =>
      match jsonObject(encoded)
      case Some(JObject(fields)) => Some(fields)
      case _ => None
  }

  /**
   * `toDictionary(dateFormat:keyEncodingStrategy:)`: a fresh `JSONEncoder`
   * given the key strategy and a formatter for `dateFormat`, then
   * `toDictionary(with:)`.
   */
  function ToDictionaryFormatted<P>(value: P,
                                    encode: (JSONEncoder, P) -> Result<Bytes, EncodingError>,
                                    jsonObject: Bytes -> Option<Json>,
                                    dateFormat: string := JSONCoding.DefaultDateFormat,
                                    keyEncodingStrategy: KeyEncodingStrategy := KeyEncodingStrategy.ConvertToSnakeCase)
    : (r: Option<map<string, Json>>)
    ensures var key := if keyEncodingStrategy.ConvertToSnakeCase? then JSONCoding.KeyEncodingDecodingStrategy.ConvertSnakeCase else JSONCoding.KeyEncodingDecodingStrategy.UseDefaultKeys;
      r == ToDictionary(value, JSONCoding.Init(dateFormat, key).encoder, encode, jsonObject)
  {
    var encoder := NewEncoder().(keyEncodingStrategy := keyEncodingStrategy,
                                 dateEncodingStrategy := DateEncodingStrategy.Formatted(DateFormatter(dateFormat)));
    ToDictionary(value, encoder, encode, jsonObject)
  }

  /** With its defaults, the convenience overload encodes exactly as a default `JSONManager`'s encoder. */
  lemma ConvenienceMatchesDefaultManager<P>(value: P,
                                            encode: (JSONEncoder, P) -> Result<Bytes, EncodingError>,
                                            jsonObject: Bytes -> Option<Json>)
    ensures ToDictionaryFormatted(value, encode, jsonObject)
      == ToDictionary(value, JSONCoding.Init().encoder, encode, jsonObject)
  {
  }
}
