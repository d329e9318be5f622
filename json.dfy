/** An abstract JSON value and the keyed-container decoding rules of Foundation's JSONDecoder
    that the source's Codable types rely on (required keys, `decodeIfPresent`, arrays). */
module Json {
  import opened Wrappers

  datatype Json =
    | JNull
    | JBool(b: bool)
    | JNumber(n: int)
    | JString(s: string)
    | JArray(items: seq<Json>)
    | JObject(fields: map<string, Json>)

  type Fields = map<string, Json>

  /** Foundation's DecodingError; each case's context is reduced to its debug description. */
  datatype DecodingError =
    | DataCorrupted(debugDescription: string)
    | KeyNotFound(key: string, debugDescription: string)
    | TypeMismatch(typeName: string, debugDescription: string)
    | ValueNotFound(typeName: string, debugDescription: string)

  /** `decoder.container(keyedBy:)`: only an object opens a keyed container. */
  function Container(j: Json): (r: Result<Fields, DecodingError>)
    ensures r.Success? <==> j.JObject?
    ensures r.Success? ==> r.value == j.fields
  {
    match j
    case JObject(f) => Success(f)
    case JNull => Failure(ValueNotFound("KeyedDecodingContainer", "found null value instead"))
    case _ => Failure(TypeMismatch("Dictionary<String, Any>", "found something else instead"))
  }

  /** The value under a key that `decode(_:forKey:)` requires: a missing key and a null
      value are different errors. */
  function Required(f: Fields, key: string, typeName: string): (r: Result<Json, DecodingError>)
    ensures r.Success? <==> key in f && f[key] != JNull
    ensures r.Success? ==> r.value == f[key]
    ensures key !in f ==> r.Failure? && r.error.KeyNotFound? && r.error.key == key
    ensures key in f && f[key] == JNull ==> r.Failure? && r.error.ValueNotFound?
  {
    if key !in f then Failure(KeyNotFound(key, "No value associated with key " + key))
    else if f[key] == JNull then Failure(ValueNotFound(typeName, "Expected " + typeName + " value but found null instead"))
    else Success(f[key])
  }

  function Mismatch<T>(typeName: string): Result<T, DecodingError> {
    Failure(TypeMismatch(typeName, "Expected to decode " + typeName + " but found something else instead"))
  }

  function StringValue(j: Json): (r: Result<string, DecodingError>)
    ensures r.Success? <==> j.JString?
    ensures r.Success? ==> r.value == j.s
  {
    if j.JString? then Success(j.s)
    else if j.JNull? then Failure(ValueNotFound("String", "Expected String value but found null instead"))
    else Mismatch("String")
  }

  function DecodeString(f: Fields, key: string): (r: Result<string, DecodingError>)
    ensures r.Success? <==> key in f && f[key].JString?
    ensures r.Success? ==> r.value == f[key].s
  {
    match Required(f, key, "String")
    case Failure(e) => Failure(e)
    case Success(j) => StringValue(j)
  }

  function DecodeBool(f: Fields, key: string): (r: Result<bool, DecodingError>)
    ensures r.Success? <==> key in f && f[key].JBool?
    ensures r.Success? ==> r.value == f[key].b
  {
    match Required(f, key, "Bool")
    case Failure(e) => Failure(e)
    case Success(j) => if j.JBool? then Success(j.b) else Mismatch("Bool")
  }

  function DecodeInt(f: Fields, key: string): (r: Result<int, DecodingError>)
    ensures r.Success? <==> key in f && f[key].JNumber?
    ensures r.Success? ==> r.value == f[key].n
  {
    match Required(f, key, "Int")
    case Failure(e) => Failure(e)
    case Success(j) => if j.JNumber? then Success(j.n) else Mismatch("Int")
  }

  /** `decodeIfPresent(String.self, forKey:)`: a missing key and null both read as nil; any
      other non-string value is still a type mismatch. */
  function DecodeStringIfPresent(f: Fields, key: string): (r: Result<Option<string>, DecodingError>)
    ensures (key !in f || f[key] == JNull) ==> r == Success(None)
    ensures key in f && f[key].JString? ==> r == Success(Some(f[key].s))
    ensures r.Failure? <==> key in f && f[key] != JNull && !f[key].JString?
  {
    if key !in f || f[key] == JNull then Success(None)
    else match StringValue(f[key])
      case Failure(e) => Failure(e)
      case Success(s) => Success(Some(s))
  }

  /** Decodes every element with `element`, in order; the first failure is the result. */
  function DecodeEach<T>(items: seq<Json>, element: Json -> Result<T, DecodingError>): (r: Result<seq<T>, DecodingError>)
    ensures r.Success? ==> |r.value| == |items| && forall i :: 0 <= i < |items| ==> element(items[i]) == Success(r.value[i])
    ensures r.Success? <==> forall i :: 0 <= i < |items| ==> element(items[i]).Success?
    ensures r.Failure? ==> exists i :: 0 <= i < |items| && element(items[i]) == Failure(r.error)
    decreases |items|
  {
    if items == [] then Success([])
    else match element(items[0])
      case Failure(e) => Failure(e)
      case Success(x) =>
        match DecodeEach(items[1..], element)
        case Failure(e) => Failure(e)
        case Success(xs) => Success([x] + xs)
  }

  /** `decode([T].self, forKey:)`. */
  function DecodeArray<T>(f: Fields, key: string, element: Json -> Result<T, DecodingError>): (r: Result<seq<T>, DecodingError>)
    ensures r.Success? ==> key in f && f[key].JArray? && DecodeEach(f[key].items, element) == r
    ensures key in f && f[key].JArray? ==> r == DecodeEach(f[key].items, element)
  {
    match Required(f, key, "Array<Any>")
    case Failure(e) => Failure(e)
    case Success(j) => if j.JArray? then DecodeEach(j.items, element) else Mismatch("Array<Any>")
  }

  /** `decodeIfPresent([T].self, forKey:)`. */
  function DecodeArrayIfPresent<T>(f: Fields, key: string, element: Json -> Result<T, DecodingError>): (r: Result<Option<seq<T>>, DecodingError>)
    ensures (key !in f || f[key] == JNull) ==> r == Success(None)
    ensures key in f && f[key].JArray? && DecodeEach(f[key].items, element).Success? ==> r == Success(Some(DecodeEach(f[key].items, element).value))
  {
    if key !in f || f[key] == JNull then Success(None)
    else match DecodeArray(f, key, element)
      case Failure(e) => Failure(e)
      case Success(xs) => Success(Some(xs))
  }

  /** `encodeIfPresent`: nil writes no key at all. */
  function EntryIfPresent(key: string, v: Option<Json>): (f: Fields)
    ensures v.None? <==> key !in f
    ensures v.Some? ==> f == map[key := v.value]
  {
    if v.Some? then map[key := v.value] else map[]
  }

  function StringOrAbsent(s: Option<string>): Option<Json> {
    if s.Some? then Some(JString(s.value)) else None
  }

  function StringArray(xs: seq<string>): (j: Json)
    ensures j.JArray? && |j.items| == |xs|
    ensures forall i :: 0 <= i < |xs| ==> j.items[i] == JString(xs[i])
  {
    JArray(seq(|xs|, i requires 0 <= i < |xs| => JString(xs[i])))
  }

  /** Encoding a list element-wise and decoding it back gives the list, whenever each
      element round-trips. */
  lemma DecodeEachInverse<T>(xs: seq<T>, items: seq<Json>, element: Json -> Result<T, DecodingError>)
    requires |items| == |xs|
    requires forall i :: 0 <= i < |xs| ==> element(items[i]) == Success(xs[i])
    ensures DecodeEach(items, element) == Success(xs)
  {
    var r := DecodeEach(items, element);
    assert r.Success?;
    assert r.value == xs;
  }

  lemma StringArrayRoundTrip(xs: seq<string>)
    ensures DecodeEach(StringArray(xs).items, StringValue) == Success(xs)
  {
    DecodeEachInverse(xs, StringArray(xs).items, StringValue);
  }
}
