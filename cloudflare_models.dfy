/** Cloudflare credentials, the v4 response envelope, user details and the service's error
    kinds (dotDNS/Models/CloudflareModels.swift). */
module CloudflareModels {
  import opened Wrappers
  import opened Text
  import opened Json

  /** Either a bearer token, or an account e-mail together with the global API key. */
  datatype CloudflareCredentials = CloudflareCredentials(
    token: Option<string>,
    email: Option<string>,
    globalApiKey: Option<string>)
  {
    /** What `makeRequest` needs to build authentication headers: a token, or failing
        that both an e-mail and a key. */
    predicate CanAuthenticate() {
      token.Some? || (email.Some? && globalApiKey.Some?)
    }
  }

  function WithToken(token: string): (c: CloudflareCredentials)
    ensures c.token == Some(token) && c.email == None && c.globalApiKey == None
    ensures c.CanAuthenticate()
  {
    CloudflareCredentials(Some(token), None, None)
  }

  function WithGlobalKey(email: string, key: string): (c: CloudflareCredentials)
    ensures c.token == None && c.email == Some(email) && c.globalApiKey == Some(key)
    ensures c.CanAuthenticate()
  {
    CloudflareCredentials(None, Some(email), Some(key))
  }

  /** The synthesized `Encodable` conformance: one key per property, nil properties omitted. */
  function EncodeCredentials(c: CloudflareCredentials): (j: Json)
    ensures j.JObject?
    ensures "token" in j.fields <==> c.token.Some?
    ensures "email" in j.fields <==> c.email.Some?
    ensures "globalApiKey" in j.fields <==> c.globalApiKey.Some?
  {
    JObject(EntryIfPresent("token", StringOrAbsent(c.token))
      + EntryIfPresent("email", StringOrAbsent(c.email))
      + EntryIfPresent("globalApiKey", StringOrAbsent(c.globalApiKey)))
  }

  /** The synthesized `Decodable` conformance: every property is optional. */
  function DecodeCredentials(j: Json): (r: Result<CloudflareCredentials, DecodingError>)
    ensures j == JObject(map[]) ==> r == Success(CloudflareCredentials(None, None, None))
    ensures !j.JObject? ==> r.Failure?
  {
    match Container(j)
    case Failure(e) => Failure(e)
    case Success(f) =>
      match DecodeStringIfPresent(f, "token")
      case Failure(e) => Failure(e)
      case Success(token) =>
        match DecodeStringIfPresent(f, "email")
        case Failure(e) => Failure(e)
        case Success(email) =>
          match DecodeStringIfPresent(f, "globalApiKey")
          case Failure(e) => Failure(e)
          case Success(key) => Success(CloudflareCredentials(token, email, key))
  }

  lemma CredentialsRoundTrip(c: CloudflareCredentials)
    ensures DecodeCredentials(EncodeCredentials(c)) == Success(c)
  {
    var f := EncodeCredentials(c).fields;
    assert c.token.Some? ==> f["token"] == JString(c.token.value);
    assert c.email.Some? ==> f["email"] == JString(c.email.value);
    assert c.globalApiKey.Some? ==> f["globalApiKey"] == JString(c.globalApiKey.value);
  }

  /** One entry of the envelope's `errors` list (`CloudflareAPIError`). */
  datatype ApiErrorEntry = ApiErrorEntry(code: int, message: string)

  function EncodeApiError(e: ApiErrorEntry): Json {
    JObject(map["code" := JNumber(e.code), "message" := JString(e.message)])
  }

  function DecodeApiError(j: Json): (r: Result<ApiErrorEntry, DecodingError>)
    ensures r.Success? ==> j.JObject? && "code" in j.fields && "message" in j.fields
  {
    match Container(j)
    case Failure(e) => Failure(e)
    case Success(f) =>
      match DecodeInt(f, "code")
      case Failure(e) => Failure(e)
      case Success(code) =>
        match DecodeString(f, "message")
        case Failure(e) => Failure(e)
        case Success(message) => Success(ApiErrorEntry(code, message))
  }

  lemma ApiErrorRoundTrip(e: ApiErrorEntry)
    ensures DecodeApiError(EncodeApiError(e)) == Success(e)
  {
  }

  function EncodeApiErrors(es: seq<ApiErrorEntry>): (items: seq<Json>)
    ensures |items| == |es| && forall i :: 0 <= i < |es| ==> items[i] == EncodeApiError(es[i])
  {
    seq(|es|, i requires 0 <= i < |es| => EncodeApiError(es[i]))
  }

  lemma ApiErrorsRoundTrip(es: seq<ApiErrorEntry>)
    ensures DecodeEach(EncodeApiErrors(es), DecodeApiError) == Success(es)
  {
    var items := EncodeApiErrors(es);
    forall i | 0 <= i < |es|
      ensures DecodeApiError(items[i]) == Success(es[i])
    {
      ApiErrorRoundTrip(es[i]);
    }
    DecodeEachInverse(es, items, DecodeApiError);
  }

  /** The Cloudflare v4 response envelope (`CloudflareResponse<T>`): `result` is optional. */
  datatype Envelope<T> = Envelope(
    success: bool,
    errors: seq<ApiErrorEntry>,
    messages: seq<string>,
    result: Option<T>)

  function EncodeEnvelope<T>(env: Envelope<T>, encodeResult: T -> Json): (j: Json)
    ensures j.JObject? && ("result" in j.fields <==> env.result.Some?)
  {
    JObject(map[
      "success" := JBool(env.success),
      "errors" := JArray(EncodeApiErrors(env.errors)),
      "messages" := StringArray(env.messages)]
      + EntryIfPresent("result", if env.result.Some? then Some(encodeResult(env.result.value)) else None))
  }

  /** The synthesized decoder: `success`, `errors` and `messages` are required, `result` is
      read with `decodeIfPresent`. */
  function DecodeEnvelope<T>(j: Json, decodeResult: Json -> Result<T, DecodingError>): (r: Result<Envelope<T>, DecodingError>)
    ensures r.Success? ==> j.JObject? && "success" in j.fields && "errors" in j.fields && "messages" in j.fields
    ensures r.Success? && r.value.result.Some? ==> "result" in j.fields
  {
    match Container(j)
    case Failure(e) => Failure(e)
    case Success(f) =>
      match DecodeBool(f, "success")
      case Failure(e) => Failure(e)
      case Success(success) =>
        match DecodeArray(f, "errors", DecodeApiError)
        case Failure(e) => Failure(e)
        case Success(errors) =>
          match DecodeArray(f, "messages", StringValue)
          case Failure(e) => Failure(e)
          case Success(messages) =>
            if "result" !in f || f["result"] == JNull then Success(Envelope(success, errors, messages, None))
            else match decodeResult(f["result"])
              case Failure(e) => Failure(e)
              case Success(x) => Success(Envelope(success, errors, messages, Some(x)))
  }

  /** An envelope decodes back to itself, including one that carries no result. */
  lemma EnvelopeRoundTrip<T>(env: Envelope<T>, encodeResult: T -> Json, decodeResult: Json -> Result<T, DecodingError>)
    requires env.result.Some? ==> decodeResult(encodeResult(env.result.value)) == Success(env.result.value)
    requires env.result.Some? ==> encodeResult(env.result.value) != JNull
    ensures DecodeEnvelope(EncodeEnvelope(env, encodeResult), decodeResult) == Success(env)
  {
    var f := EncodeEnvelope(env, encodeResult).fields;
    assert f["success"] == JBool(env.success);
    assert f["errors"] == JArray(EncodeApiErrors(env.errors));
    assert f["messages"] == StringArray(env.messages);
    assert DecodeBool(f, "success") == Success(env.success);
    ApiErrorsRoundTrip(env.errors);
    assert DecodeArray(f, "errors", DecodeApiError) == Success(env.errors);
    StringArrayRoundTrip(env.messages);
    assert DecodeArray(f, "messages", StringValue) == Success(env.messages);
    if env.result.Some? {
      assert f["result"] == encodeResult(env.result.value);
    } else {
      assert "result" !in f;
    }
  }

  /** A user's account details (`CloudflareUserDetails`, and the identical
      `UserDetailsResponse.UserDetails` nested in the service). */
  datatype UserDetails = UserDetails(
    id: string,
    email: string,
    firstName: Option<string>,
    lastName: Option<string>)

  /** `[firstName, lastName].compactMap { $0 }.joined(separator: " ")`. */
  function FullName(u: UserDetails): string {
    Join(Present([u.firstName, u.lastName]), " ")
  }

  lemma FullNameCases(u: UserDetails)
    ensures u.firstName.None? && u.lastName.None? ==> FullName(u) == ""
    ensures u.firstName.Some? && u.lastName.None? ==> FullName(u) == u.firstName.value
    ensures u.firstName.None? && u.lastName.Some? ==> FullName(u) == u.lastName.value
    ensures u.firstName.Some? && u.lastName.Some? ==>
      FullName(u) == u.firstName.value + " " + u.lastName.value
  {
    var xs := [u.firstName, u.lastName];
    assert xs[1..] == [u.lastName];
    assert [u.lastName][1..] == [];
    var last := if u.lastName.Some? then [u.lastName.value] else [];
    assert Present([u.lastName]) == last;
    if u.firstName.Some? {
      assert Present(xs) == [u.firstName.value] + last;
      if u.lastName.Some? {
        var parts := [u.firstName.value, u.lastName.value];
        assert parts[1..] == [u.lastName.value];
        assert Join(parts, " ") == u.firstName.value + " " + Join([u.lastName.value], " ");
      }
    } else {
      assert Present(xs) == last;
    }
  }

  /** The errors the Cloudflare client raises itself. `RateLimitExceeded` is declared but
      nothing raises it. */
  datatype CloudflareServiceError =
    | InvalidCredentials
    | ApiError(message: string)
    | RateLimitExceeded
    | NetworkError(message: string)

  /** `errorDescription`; never nil. (Long texts are written as two literals joined.) */
  function ServiceErrorDescription(e: CloudflareServiceError): (r: Option<string>)
    ensures r.Some?
  {
    match e
    case InvalidCredentials => Some("Invalid API credentials. " + "Please check your API token or key.")
    case ApiError(m) => Some("Cloudflare API Error: " + m)
    case RateLimitExceeded => Some("Rate limit exceeded. " + "Please try again later.")
    case NetworkError(m) => Some("Network Error: " + m)
  }

  /** Different errors are never described the same way; in particular the message of an
      API error can be recovered from its description. */
  lemma ServiceErrorDescriptionInjective(a: CloudflareServiceError, b: CloudflareServiceError)
    ensures ServiceErrorDescription(a) == ServiceErrorDescription(b) ==> a == b
  {
    var da, db := ServiceErrorDescription(a).value, ServiceErrorDescription(b).value;
    ServiceErrorInitial(a);
    ServiceErrorInitial(b);
    if da == db {
      if a.ApiError? && b.ApiError? {
        PrefixCancels("Cloudflare API Error: ", a.message, b.message);
      } else if a.NetworkError? && b.NetworkError? {
        PrefixCancels("Network Error: ", a.message, b.message);
      }
    }
  }

  /** Each kind of error has a description starting with its own letter. */
  lemma ServiceErrorInitial(e: CloudflareServiceError)
    ensures |ServiceErrorDescription(e).value| > 0
    ensures ServiceErrorDescription(e).value[0] ==
      match e
      case InvalidCredentials => 'I'
      case ApiError(_) => 'C'
      case RateLimitExceeded => 'R'
      case NetworkError(_) => 'N'
  {
    match e
    case ApiError(m) => assert ("Cloudflare API Error: " + m)[0] == 'C';
    case NetworkError(m) => assert ("Network Error: " + m)[0] == 'N';
    case _ =>
  }
}
