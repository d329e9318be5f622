/** A configured DNS-provider connection and its credential payload
    (dotDNS/Models/Provider.swift), with the JSON form the registry persists. */
module Providers {
  import opened Wrappers
  import opened Json
  import opened CloudflareModels

  /** A provider's identity; its textual UUID form (generation is outside the model). */
  type Uuid = string

  datatype ProviderType = Cloudflare | NameDotCom | GoDaddy | Route53

  /** The enum's raw values, which are also its persisted form. */
  function RawValue(t: ProviderType): string {
    match t
    case Cloudflare => "Cloudflare"
    case NameDotCom => "Name.com"
    case GoDaddy => "GoDaddy"
    case Route53 => "AWS Route53"
  }

  /** `ProviderType(rawValue:)`. */
  function FromRawValue(s: string): (r: Option<ProviderType>)
    ensures r.Some? ==> RawValue(r.value) == s
  {
    if s == "Cloudflare" then Some(Cloudflare)
    else if s == "Name.com" then Some(NameDotCom)
    else if s == "GoDaddy" then Some(GoDaddy)
    else if s == "AWS Route53" then Some(Route53)
    else None
  }

  /** The raw values are pairwise distinct, so every type reads back as itself. */
  lemma RawValueRoundTrip(t: ProviderType)
    ensures FromRawValue(RawValue(t)) == Some(t)
    ensures forall u :: u != t ==> RawValue(u) != RawValue(t)
  {
  }

  /** The credential payload, tagged by vendor; Cloudflare's is the only case. */
  datatype ProviderCredentials = CloudflareKind(cloudflare: CloudflareCredentials)

  /** The discriminant written under `type` for each case. */
  function Discriminant(c: ProviderCredentials): string {
    match c
    case CloudflareKind(_) => "cloudflare"
  }

  /** `encode(to:)`: the discriminant under `type`, the payload under `credentials`. */
  function EncodeProviderCredentials(c: ProviderCredentials): (j: Json)
    ensures j.JObject? && j.fields.Keys == {"type", "credentials"}
    ensures j.fields["type"] == JString(Discriminant(c))
    ensures c.CloudflareKind? ==>
      j.fields["type"] == JString("cloudflare") && j.fields["credentials"] == EncodeCredentials(c.cloudflare)
  {
    match c
    case CloudflareKind(creds) =>
      JObject(map["type" := JString("cloudflare"), "credentials" := EncodeCredentials(creds)])
  }

  /** `init(from:)`: reads `type` first and rejects any discriminant it does not know. */
  function DecodeProviderCredentials(j: Json): (r: Result<ProviderCredentials, DecodingError>)
    ensures r.Success? ==> j.JObject? && "type" in j.fields && j.fields["type"] == JString(Discriminant(r.value))
    ensures j.JObject? && "type" in j.fields && j.fields["type"].JString? && j.fields["type"].s != "cloudflare" ==>
      r == Failure(DataCorrupted("Unknown provider type"))
  {
    match Container(j)
    case Failure(e) => Failure(e)
    case Success(f) =>
      match DecodeString(f, "type")
      case Failure(e) => Failure(e)
      case Success(kind) =>
        if kind == "cloudflare" then
          match Required(f, "credentials", "CloudflareCredentials")
          case Failure(e) => Failure(e)
          case Success(payload) =>
            match DecodeCredentials(payload)
            case Failure(e) => Failure(e)
            case Success(creds) => Success(CloudflareKind(creds))
        else Failure(DataCorrupted("Unknown provider type"))
  }

  lemma ProviderCredentialsRoundTrip(c: ProviderCredentials)
    ensures DecodeProviderCredentials(EncodeProviderCredentials(c)) == Success(c)
  {
    CredentialsRoundTrip(c.cloudflare);
  }

  /** A configured connection. Equality and hashing look at `id` alone. */
  datatype Provider = Provider(
    id: Uuid,
    name: string,
    providerType: ProviderType,
    isConnected: bool,
    email: Option<string>,
    credentials: Option<ProviderCredentials>)

  /** `init` with its defaults: not connected, no e-mail, no credentials. */
  function NewProvider(id: Uuid, name: string, providerType: ProviderType): (p: Provider)
    ensures p.id == id && p.name == name && p.providerType == providerType
    ensures !p.isConnected && p.email.None? && p.credentials.None?
  {
    Provider(id, name, providerType, false, None, None)
  }

  /** Swift's `==` on providers. */
  predicate SameProvider(a: Provider, b: Provider) {
    a.id == b.id
  }

  /** What `hash(into:)` feeds the hasher: the id and nothing else. */
  function HashInput(p: Provider): seq<Uuid> {
    [p.id]
  }

  /** `==` is an equivalence that ignores every field but the id, and equal providers feed
      the hasher the same input, so they hash alike under any hasher. */
  lemma ProviderEqualityById(a: Provider, b: Provider, c: Provider, hasher: seq<Uuid> -> int)
    ensures SameProvider(a, a)
    ensures SameProvider(a, b) ==> SameProvider(b, a)
    ensures SameProvider(a, b) && SameProvider(b, c) ==> SameProvider(a, c)
    ensures SameProvider(a, b) <==> a.id == b.id
    ensures SameProvider(a, b) ==> hasher(HashInput(a)) == hasher(HashInput(b))
  {
  }

  /** The synthesized encoder: one key per property, `type` as its raw value, nil optionals
      omitted. */
  function EncodeProvider(p: Provider): (j: Json)
    ensures j.JObject?
    ensures "id" in j.fields && j.fields["id"] == JString(p.id)
    ensures "type" in j.fields && j.fields["type"] == JString(RawValue(p.providerType))
    ensures "credentials" in j.fields <==> p.credentials.Some?
  {
    JObject(map[
      "id" := JString(p.id),
      "name" := JString(p.name),
      "type" := JString(RawValue(p.providerType)),
      "isConnected" := JBool(p.isConnected)]
      + EntryIfPresent("email", StringOrAbsent(p.email))
      + EntryIfPresent("credentials",
          if p.credentials.Some? then Some(EncodeProviderCredentials(p.credentials.value)) else None))
  }

  function DecodeProviderType(f: Fields): (r: Result<ProviderType, DecodingError>)
    ensures r.Success? ==> "type" in f && f["type"] == JString(RawValue(r.value))
  {
    match DecodeString(f, "type")
    case Failure(e) => Failure(e)
    case Success(raw) =>
      match FromRawValue(raw)
      case None => Failure(DataCorrupted("Cannot initialize ProviderType from invalid String value " + raw))
      case Some(t) => Success(t)
  }

  function DecodeOptionalCredentials(f: Fields): Result<Option<ProviderCredentials>, DecodingError> {
    if "credentials" !in f || f["credentials"] == JNull then Success(None)
    else match DecodeProviderCredentials(f["credentials"])
      case Failure(e) => Failure(e)
      case Success(c) => Success(Some(c))
  }

  /** The synthesized decoder: properties in declaration order, the first failure wins. */
  function DecodeProvider(j: Json): (r: Result<Provider, DecodingError>)
    ensures r.Success? ==> j.JObject? && "id" in j.fields && j.fields["id"] == JString(r.value.id)
  {
    match Container(j)
    case Failure(e) => Failure(e)
    case Success(f) =>
      match DecodeString(f, "id")
      case Failure(e) => Failure(e)
      case Success(id) =>
        match DecodeString(f, "name")
        case Failure(e) => Failure(e)
        case Success(name) =>
          match DecodeProviderType(f)
          case Failure(e) => Failure(e)
          case Success(t) =>
            match DecodeBool(f, "isConnected")
            case Failure(e) => Failure(e)
            case Success(connected) =>
              match DecodeStringIfPresent(f, "email")
              case Failure(e) => Failure(e)
              case Success(email) =>
                match DecodeOptionalCredentials(f)
                case Failure(e) => Failure(e)
                case Success(creds) => Success(Provider(id, name, t, connected, email, creds))
  }

  /** A provider reads back equal in every field, credentials included. */
  lemma ProviderRoundTrip(p: Provider)
    ensures DecodeProvider(EncodeProvider(p)) == Success(p)
  {
    var f := EncodeProvider(p).fields;
    assert f["name"] == JString(p.name);
    assert f["isConnected"] == JBool(p.isConnected);
    RawValueRoundTrip(p.providerType);
    assert DecodeProviderType(f) == Success(p.providerType);
    assert p.email.Some? ==> f["email"] == JString(p.email.value);
    if p.credentials.Some? {
      assert f["credentials"] == EncodeProviderCredentials(p.credentials.value);
      ProviderCredentialsRoundTrip(p.credentials.value);
    }
    assert DecodeOptionalCredentials(f) == Success(p.credentials);
  }

  /** The persisted form of the registry: a JSON array of providers. */
  function EncodeProviders(ps: seq<Provider>): (j: Json)
    ensures j.JArray? && |j.items| == |ps|
    ensures forall i :: 0 <= i < |ps| ==> j.items[i] == EncodeProvider(ps[i])
  {
    JArray(seq(|ps|, i requires 0 <= i < |ps| => EncodeProvider(ps[i])))
  }

  /** The load: an array whose every element decodes as a provider, in order; the first
      element that fails decides the error, and a non-array is a type mismatch. */
  function DecodeProviders(j: Json): (r: Result<seq<Provider>, DecodingError>)
    ensures r.Success? <==> j.JArray? && forall i :: 0 <= i < |j.items| ==> DecodeProvider(j.items[i]).Success?
    ensures r.Success? ==>
      (|r.value| == |j.items| && forall i :: 0 <= i < |j.items| ==> DecodeProvider(j.items[i]) == Success(r.value[i]))
    ensures !j.JArray? ==> r.Failure? && r.error.TypeMismatch?
  {
    if j.JArray? then DecodeEach(j.items, DecodeProvider)
    else Failure(TypeMismatch("Array<Any>", "Expected to decode Array<Any> but found something else instead"))
  }

  /** Saving and then loading the registry gives back the same ordered list. */
  lemma ProvidersRoundTrip(ps: seq<Provider>)
    ensures DecodeProviders(EncodeProviders(ps)) == Success(ps)
  {
    var items := EncodeProviders(ps).items;
    forall i | 0 <= i < |ps|
      ensures DecodeProvider(items[i]) == Success(ps[i])
    {
      ProviderRoundTrip(ps[i]);
    }
    DecodeEachInverse(ps, items, DecodeProvider);
  }
}
