/** A Cloudflare zone and the `/zones` response (dotDNS/Models/CloudflareDomain.swift). */
module CloudflareDomains {
  import opened Wrappers
  import opened Json
  import opened CloudflareModels

  /** One zone. `id`, `name` and `status` are required; the two name-server lists may be
      absent. */
  datatype CloudflareDomain = CloudflareDomain(
    id: string,
    name: string,
    status: string,
    nameServers: Option<seq<string>>,
    originalNameServers: Option<seq<string>>)

  /** The JSON keys of the name-server lists. */
  const NameServersKey := "name_servers"
  const OriginalNameServersKey := "original_name_servers"

  function EncodeDomain(d: CloudflareDomain): (j: Json)
    ensures j.JObject? && (NameServersKey in j.fields <==> d.nameServers.Some?)
    ensures OriginalNameServersKey in j.fields <==> d.originalNameServers.Some?
  {
    JObject(map["id" := JString(d.id), "name" := JString(d.name), "status" := JString(d.status)]
      + EntryIfPresent(NameServersKey, if d.nameServers.Some? then Some(StringArray(d.nameServers.value)) else None)
      + EntryIfPresent(OriginalNameServersKey,
          if d.originalNameServers.Some? then Some(StringArray(d.originalNameServers.value)) else None))
  }

  /** The synthesized decoder over the declared coding keys. */
  function DecodeDomain(j: Json): (r: Result<CloudflareDomain, DecodingError>)
    ensures r.Success? ==> j.JObject?
    ensures r.Success? ==>
      "id" in j.fields && "name" in j.fields && "status" in j.fields
      && j.fields["id"] == JString(r.value.id) && j.fields["name"] == JString(r.value.name)
      && j.fields["status"] == JString(r.value.status)
    ensures r.Success? && r.value.nameServers.Some? ==> NameServersKey in j.fields
    ensures r.Success? && r.value.originalNameServers.Some? ==> OriginalNameServersKey in j.fields
    ensures r.Success? && (NameServersKey !in j.fields || j.fields[NameServersKey] == JNull) ==> r.value.nameServers.None?
  {
    match Container(j)
    case Failure(e) => Failure(e)
    case Success(f) =>
      match DecodeString(f, "id")
      case Failure(e) => Failure(e)
      case Success(id) =>
        match DecodeString(f, "name")
        case Failure(e) => Failure(e)
        case Success(name) =>
          match DecodeString(f, "status")
          case Failure(e) => Failure(e)
          case Success(status) =>
            match DecodeArrayIfPresent(f, NameServersKey, StringValue)
            case Failure(e) => Failure(e)
            case Success(ns) =>
              match DecodeArrayIfPresent(f, OriginalNameServersKey, StringValue)
              case Failure(e) => Failure(e)
              case Success(ons) => Success(CloudflareDomain(id, name, status, ns, ons))
  }

  lemma DomainRoundTrip(d: CloudflareDomain)
    ensures DecodeDomain(EncodeDomain(d)) == Success(d)
  {
    var f := EncodeDomain(d).fields;
    assert f["id"] == JString(d.id) && f["name"] == JString(d.name) && f["status"] == JString(d.status);
    if d.nameServers.Some? {
      assert f[NameServersKey] == StringArray(d.nameServers.value);
      StringArrayRoundTrip(d.nameServers.value);
    }
    if d.originalNameServers.Some? {
      assert f[OriginalNameServersKey] == StringArray(d.originalNameServers.value);
      StringArrayRoundTrip(d.originalNameServers.value);
    }
  }

  /** The `/zones` envelope; unlike CloudflareResponse its `result` is required. */
  datatype DomainsResponse = DomainsResponse(
    result: seq<CloudflareDomain>,
    success: bool,
    errors: seq<ApiErrorEntry>,
    messages: seq<string>)

  function EncodeDomains(ds: seq<CloudflareDomain>): (items: seq<Json>)
    ensures |items| == |ds| && forall i :: 0 <= i < |ds| ==> items[i] == EncodeDomain(ds[i])
  {
    seq(|ds|, i requires 0 <= i < |ds| => EncodeDomain(ds[i]))
  }

  function EncodeDomainsResponse(r: DomainsResponse): Json {
    JObject(map[
      "result" := JArray(EncodeDomains(r.result)),
      "success" := JBool(r.success),
      "errors" := JArray(EncodeApiErrors(r.errors)),
      "messages" := StringArray(r.messages)])
  }

  /** The hand-written `init(from:)`: `success`, `errors`, `messages`, then `result`, each
      required; a failure while decoding `result` is rethrown as it is. */
  function DecodeDomainsResponse(j: Json): (r: Result<DomainsResponse, DecodingError>)
    ensures r.Success? ==>
      j.JObject? && "success" in j.fields && "errors" in j.fields && "messages" in j.fields && "result" in j.fields
    ensures r.Success? ==> j.fields["success"] == JBool(r.value.success)
    ensures r.Success? ==> j.fields["result"].JArray? && |r.value.result| == |j.fields["result"].items|
    ensures (&& j.JObject?
             && DecodeBool(j.fields, "success").Success?
             && DecodeArray(j.fields, "errors", DecodeApiError).Success?
             && DecodeArray(j.fields, "messages", StringValue).Success?
             && DecodeArray(j.fields, "result", DecodeDomain).Failure?)
      ==> r == Failure(DecodeArray(j.fields, "result", DecodeDomain).error)
  {
    match Container(j)
    case Failure(e) => Failure(e)
    case Success(f) =>
      match DecodeBool(f, "success")
      case Failure(e) => Failure(e)
      case Success(success) =>
        match DecodeArray(f, "errors", DecodeApiError)
        case Failure(e) => Failure(e)
        case Success(errors) =>
          match DecodeArray(f, "messages", StringValue)
          case Failure(e) => Failure(e)
          case Success(messages) =>
            match DecodeArray(f, "result", DecodeDomain)
            case Failure(e) => Failure(e)
            case Success(result) => Success(DomainsResponse(result, success, errors, messages))
  }

  /** A response missing any of its four keys never decodes, whatever else it holds. */
  lemma DomainsResponseKeysRequired(f: Fields)
    ensures "success" !in f ==>
      DecodeDomainsResponse(JObject(f)).Failure? && DecodeDomainsResponse(JObject(f)).error.KeyNotFound?
      && DecodeDomainsResponse(JObject(f)).error.key == "success"
    ensures "success" in f && f["success"].JBool? && "errors" !in f ==>
      DecodeDomainsResponse(JObject(f)).Failure? && DecodeDomainsResponse(JObject(f)).error.KeyNotFound?
    ensures "messages" !in f || "result" !in f ==> DecodeDomainsResponse(JObject(f)).Failure?
  {
  }

  lemma DomainsResponseRoundTrip(r: DomainsResponse)
    ensures DecodeDomainsResponse(EncodeDomainsResponse(r)) == Success(r)
  {
    var f := EncodeDomainsResponse(r).fields;
    assert f["success"] == JBool(r.success);
    ApiErrorsRoundTrip(r.errors);
    assert f["errors"] == JArray(EncodeApiErrors(r.errors));
    StringArrayRoundTrip(r.messages);
    assert f["messages"] == StringArray(r.messages);
    var items := EncodeDomains(r.result);
    assert f["result"] == JArray(items);
    forall i | 0 <= i < |r.result|
      ensures DecodeDomain(items[i]) == Success(r.result[i])
    {
      DomainRoundTrip(r.result[i]);
    }
    DecodeEachInverse(r.result, items, DecodeDomain);
  }
}
