/**
 * `JSONManager`: one encoder and one decoder configured together, so that
 * what the client sends and what it reads follow the same key casing and
 * the same date format.
 */
module JSONCoding {
  import opened Wrappers
  import opened Foundation

  /** The key strategy a manager is configured with, for both directions. */
  datatype KeyEncodingDecodingStrategy = ConvertSnakeCase | UseDefaultKeys

  function ToEncoderStrategy(k: KeyEncodingDecodingStrategy): (r: KeyEncodingStrategy)
    ensures r.ConvertToSnakeCase? <==> k.ConvertSnakeCase?
  {
    match k
    case ConvertSnakeCase => KeyEncodingStrategy.ConvertToSnakeCase
    case UseDefaultKeys => KeyEncodingStrategy.UseDefaultKeys
  }

  function ToDecoderStrategy(k: KeyEncodingDecodingStrategy): (r: KeyDecodingStrategy)
    ensures r.ConvertFromSnakeCase? <==> k.ConvertSnakeCase?
  {
    match k
    case ConvertSnakeCase => KeyDecodingStrategy.ConvertFromSnakeCase
    case UseDefaultKeys => KeyDecodingStrategy.UseDefaultKeys
  }

  const DefaultDateFormat: string := "yyyy-MM-dd'T'HH:mm:ss.SSSZ"

  datatype JSONManager = JSONManager(encoder: JSONEncoder, decoder: JSONDecoder)

  /**
   * An encoder and a decoder are symmetric when the encoder writes snake-case
   * keys exactly when the decoder reads them, and both format dates with the
   * same formatter.
   */
  predicate Symmetric(encoder: JSONEncoder, decoder: JSONDecoder)
  {
    && (encoder.keyEncodingStrategy.ConvertToSnakeCase? <==> decoder.keyDecodingStrategy.ConvertFromSnakeCase?)
    && (encoder.dateEncodingStrategy.Formatted? <==> decoder.dateDecodingStrategy.Formatted?)
    && (encoder.dateEncodingStrategy.Formatted? ==>
          encoder.dateEncodingStrategy.formatter == decoder.dateDecodingStrategy.formatter)
  }

  /** `JSONManager(dateFormat:keyStrategy:)`: both coders share one formatter built from `dateFormat`. */
  function Init(dateFormat: string := DefaultDateFormat,
                keyStrategy: KeyEncodingDecodingStrategy := ConvertSnakeCase): (m: JSONManager)
    ensures Symmetric(m.encoder, m.decoder)
    ensures m.encoder.dateEncodingStrategy == DateEncodingStrategy.Formatted(DateFormatter(dateFormat))
    ensures m.encoder.keyEncodingStrategy == ToEncoderStrategy(keyStrategy)
    ensures m.decoder.keyDecodingStrategy == ToDecoderStrategy(keyStrategy)
  {
    var formatter := DateFormatter(dateFormat);
    var encoder := NewEncoder().(keyEncodingStrategy := ToEncoderStrategy(keyStrategy),
                                 dateEncodingStrategy := DateEncodingStrategy.Formatted(formatter));
    var decoder := NewDecoder().(keyDecodingStrategy := ToDecoderStrategy(keyStrategy),
                                 dateDecodingStrategy := DateDecodingStrategy.Formatted(formatter));
    JSONManager(encoder, decoder)
  }

  /** `JSONManager(encoder:decoder:)`: the coders are taken as given, symmetric or not. */
  function InitWith(encoder: JSONEncoder, decoder: JSONDecoder): (m: JSONManager)
    ensures m.encoder == encoder && m.decoder == decoder
    ensures Symmetric(m.encoder, m.decoder) <==> Symmetric(encoder, decoder)
  {
    JSONManager(encoder, decoder)
  }

  /** `JSONManager.encode`: the stored encoder's output, untouched. */
  function Encode<P>(m: JSONManager, value: P, encode: (JSONEncoder, P) -> Result<Bytes, EncodingError>)
    : Result<Bytes, EncodingError>
  {
    encode(m.encoder, value)
  }

  /** `JSONManager.decode`: the stored decoder's output, untouched. */
  function Decode<R>(m: JSONManager, data: Bytes, decode: (JSONDecoder, Bytes) -> Result<R, DecodingError>)
    : Result<R, DecodingError>
  {
    decode(m.decoder, data)
  }

  /** The default manager converts keys to and from snake case and uses the ISO-8601 style default format. */
  lemma DefaultManager()
    ensures Init().encoder == JSONEncoder(KeyEncodingStrategy.ConvertToSnakeCase,
                                          DateEncodingStrategy.Formatted(DateFormatter(DefaultDateFormat)))
    ensures Init().decoder == JSONDecoder(KeyDecodingStrategy.ConvertFromSnakeCase,
                                          DateDecodingStrategy.Formatted(DateFormatter(DefaultDateFormat)))
  {
  }

  /**
   * Coding through a manager is coding with a platform coder configured with
   * the manager's key strategy and date format; nothing is added or removed.
   */
  lemma ManagerCodesWithItsConfiguration<P, R>(
    dateFormat: string, keyStrategy: KeyEncodingDecodingStrategy, value: P, data: Bytes,
    encode: (JSONEncoder, P) -> Result<Bytes, EncodingError>,
    decode: (JSONDecoder, Bytes) -> Result<R, DecodingError>)
    ensures Encode(Init(dateFormat, keyStrategy), value, encode)
      == encode(JSONEncoder(ToEncoderStrategy(keyStrategy), DateEncodingStrategy.Formatted(DateFormatter(dateFormat))), value)
    ensures Decode(Init(dateFormat, keyStrategy), data, decode)
      == decode(JSONDecoder(ToDecoderStrategy(keyStrategy), DateDecodingStrategy.Formatted(DateFormatter(dateFormat))), data)
  {
  }
}
