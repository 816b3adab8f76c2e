/**
 * The `{status, data, error}` envelope some endpoints wrap their payload
 * in, and its decoding from a JSON object. Only the keys `status`, `data`
 * and `error` are read; `status` is required, the other two may be absent
 * or null.
 */
module Envelope {
  import opened Wrappers
  import opened Foundation

  /** `DefaultNetworkStatusType`, whose raw values are "success" and "error". */
  datatype StatusType = Success | Error

  function StatusRawValue(s: StatusType): string
  {
    match s
    case Success => "success"
    case Error => "error"
  }

  /** `isSuccess`: the status whose raw value is "success". */
  function IsSuccess(s: StatusType): (b: bool)
    ensures b <==> StatusRawValue(s) == "success"
  {
    s == StatusType.Success
  }

  /** `DefaultNetworkResponseError`: an optional title and an optional message. */
  datatype ResponseError = ResponseError(title: Option<string>, message: Option<string>)

  /** `DefaultNetworkResponse<T>`. */
  datatype DefaultNetworkResponse<T> = DefaultNetworkResponse(
    status: StatusType,
    data: Option<T>,
    error: Option<ResponseError>)

  /** Whether a keyed container has no usable value for `key`: the key is absent or its value is null. */
  predicate Absent(fields: map<string, Json>, key: string)
  {
    key !in fields || fields[key] == JNull
  }

  /** `decodeIfPresent`: nil when absent or null, otherwise the value decoded, whose failure propagates. */
  function DecodeIfPresent<T>(fields: map<string, Json>, key: string, decode: Json -> Result<T, DecodingError>)
    : (r: Result<Option<T>, DecodingError>)
    ensures Absent(fields, key) ==> r == Result.Success(None)
    ensures !Absent(fields, key) ==>
      (r.Success? <==> decode(fields[key]).Success?) &&
      (r.Success? ==> r.value == Some(decode(fields[key]).value)) &&
      (r.Failure? ==> r.error == decode(fields[key]).error)
  {
    if Absent(fields, key) then Result.Success(None)
    else
      match decode(fields[key])
      case Success(v) => Result.Success(Some(v))
      case Failure(e) => Result.Failure(e)
  }

  /** Decoding a `String`. */
  function DecodeString(j: Json): Result<string, DecodingError>
  {
    match j
    case JString(s) => Result.Success(s)
    case JNull => Result.Failure(ValueNotFound("String"))
    case _ => Result.Failure(TypeMismatch("String"))
  }

  /** Decoding the status: a string that must be one of the two raw values. */
  function DecodeStatus(j: Json): (r: Result<StatusType, DecodingError>)
    ensures r.Success? <==> j.JString? && (j.s == "success" || j.s == "error")
    ensures r.Success? ==> StatusRawValue(r.value) == j.s
  {
    match DecodeString(j)
    case Failure(e) => Result.Failure(e)
    case Success(s) =>
      if s == "success" then Result.Success(StatusType.Success)
      else if s == "error" then Result.Success(StatusType.Error)
      else Result.Failure(DataCorrupted("Cannot initialize DefaultNetworkStatusType from invalid String value " + s))
  }

  /** The synthesized decoding of `DefaultNetworkResponseError`: a keyed container with two optional strings. */
  function DecodeResponseError(j: Json): (r: Result<ResponseError, DecodingError>)
    ensures r.Success? <==> (
      && j.JObject?
      && (Absent(j.fields, "title") || j.fields["title"].JString?)
      && (Absent(j.fields, "message") || j.fields["message"].JString?))
    ensures r.Success? ==> r.value.title == (if Absent(j.fields, "title") then None else Some(j.fields["title"].s))
    ensures r.Success? ==> r.value.message == (if Absent(j.fields, "message") then None else Some(j.fields["message"].s))
  {
    match j
    case JObject(fields) =>
      (match DecodeIfPresent(fields, "title", DecodeString)
       case Failure(e) => Result.Failure(e)
       case Success(title) =>
         match DecodeIfPresent(fields, "message", DecodeString)
         case Failure(e) => Result.Failure(e)
         case Success(message) => Result.Success(ResponseError(title, message)))
    case _ => Result.Failure(TypeMismatch("keyed container"))
  }

  /**
   * `DefaultNetworkResponse.init(from:)`: a keyed container, then the
   * required status, then the optional data (decoded as `T`), then the
   * optional error; the first failure is the one reported.
   */
  function DecodeEnvelope<T>(j: Json, decodeData: Json -> Result<T, DecodingError>)
    : (r: Result<DefaultNetworkResponse<T>, DecodingError>)
    ensures r.Success? <==> (
      && j.JObject? && "status" in j.fields
      && DecodeStatus(j.fields["status"]).Success?
      && DecodeIfPresent(j.fields, "data", decodeData).Success?
      && DecodeIfPresent(j.fields, "error", DecodeResponseError).Success?)
    ensures r.Success? ==> j.JObject? && "status" in j.fields && DecodeStatus(j.fields["status"]) == Result.Success(r.value.status)
    ensures r.Success? ==> (r.value.data.None? <==> Absent(j.fields, "data"))
    ensures r.Success? && r.value.data.Some? ==> decodeData(j.fields["data"]) == Result.Success(r.value.data.value)
    ensures r.Success? ==> (r.value.error.None? <==> Absent(j.fields, "error"))
    ensures r.Success? && r.value.error.Some? ==> DecodeResponseError(j.fields["error"]) == Result.Success(r.value.error.value)
  {
    match j
    case JObject(fields) =>
      if "status" !in fields then Result.Failure(KeyNotFound("status"))
      else
        (match DecodeStatus(fields["status"])
         case Failure(e) => Result.Failure(e)
         case Success(status) =>
           match DecodeIfPresent(fields, "data", decodeData)
           case Failure(e) => Result.Failure(e)
           case Success(data) =>
             match DecodeIfPresent(fields, "error", DecodeResponseError)
             case Failure(e) => Result.Failure(e)
             case Success(error) => Result.Success(DefaultNetworkResponse(status, data, error)))
    case _ => Result.Failure(TypeMismatch("keyed container"))
  }

  /** Whether two objects hold the same thing under `key`. */
  predicate AgreeOn(a: map<string, Json>, b: map<string, Json>, key: string)
  {
    (key in a <==> key in b) && (key in a ==> a[key] == b[key])
  }

  /** Keys other than `status`, `data` and `error` are never read. */
  lemma OnlyThreeKeysRead<T>(a: map<string, Json>, b: map<string, Json>, decodeData: Json -> Result<T, DecodingError>)
    requires AgreeOn(a, b, "status") && AgreeOn(a, b, "data") && AgreeOn(a, b, "error")
    ensures DecodeEnvelope(JObject(a), decodeData) == DecodeEnvelope(JObject(b), decodeData)
  {
  }

  /** Without a status, or with a status other than the two raw values, the envelope does not decode. */
  lemma StatusRequired<T>(fields: map<string, Json>, decodeData: Json -> Result<T, DecodingError>)
    requires "status" !in fields || fields["status"] !in {JString("success"), JString("error")}
    ensures DecodeEnvelope(JObject(fields), decodeData).Failure?
  {
  }

  /** The wire form `{"status": "success", "data": d}` decodes to a success envelope holding `d` decoded. */
  lemma SuccessEnvelope<T>(d: Json, v: T, decodeData: Json -> Result<T, DecodingError>)
    requires d != JNull && decodeData(d) == Result.Success(v)
    ensures DecodeEnvelope(JObject(map["status" := JString("success"), "data" := d]), decodeData)
      == Result.Success(DefaultNetworkResponse(StatusType.Success, Some(v), None))
  {
    var fields := map["status" := JString("success"), "data" := d];
    assert "error" !in fields;
  }
}
