/** The HTTP transport (dotDNS/Services/NetworkManager.swift): the transport error kinds and
    their descriptions, the connectivity flag, and the mapping from an HTTP exchange to a
    decoded value or a NetworkError. */
module Network {
  import opened Wrappers
  import opened Text
  import Json

  /** The error a NetworkError.unknown wraps: the NSError built for a response that is not an
      HTTP response, or an error from Foundation known only by its localized description. */
  datatype Cause = InvalidResponse | Foreign(description: string)

  /** `localizedDescription` of the wrapped error; for InvalidResponse that of
      `NSError(domain: "Invalid Response", code: -1)`. */
  function CauseDescription(c: Cause): string {
    match c
    case InvalidResponse =>
      "The operation couldn\U{2019}t be completed. " + "(Invalid Response error " + IntToString(-1) + ".)"
    case Foreign(d) => d
  }

  datatype NetworkError =
    | NoInternetConnection
    | DnsResolutionFailed
    | InvalidUrl
    | ServerError(code: int)
    | DecodingError(message: string)
    | Unknown(cause: Cause)

  /** `errorDescription`; never nil. (Long texts are written as two literals joined.) */
  function ErrorDescription(e: NetworkError): (r: Option<string>)
    ensures r.Some?
  {
    match e
    case NoInternetConnection =>
      Some("No internet connection. " + "Please check your network settings.")
    case DnsResolutionFailed =>
      Some("Unable to connect to server. " + "Please check your internet connection.")
    case InvalidUrl => Some("Invalid URL configuration.")
    case ServerError(code) => Some("Server error occurred (Code: " + IntToString(code) + ")")
    case DecodingError(message) => Some("Data format error: " + message)
    case Unknown(cause) => Some("An error occurred: " + CauseDescription(cause))
  }

  /** Each kind of transport error has a description starting with its own letter. */
  lemma ErrorDescriptionInitial(e: NetworkError)
    ensures |ErrorDescription(e).value| > 0
    ensures ErrorDescription(e).value[0] ==
      match e
      case NoInternetConnection => 'N'
      case DnsResolutionFailed => 'U'
      case InvalidUrl => 'I'
      case ServerError(_) => 'S'
      case DecodingError(_) => 'D'
      case Unknown(_) => 'A'
  {
    match e
    case ServerError(code) =>
      assert ("Server error occurred (Code: " + IntToString(code) + ")")[0] == 'S';
    case DecodingError(m) => assert ("Data format error: " + m)[0] == 'D';
    case Unknown(c) => assert ("An error occurred: " + CauseDescription(c))[0] == 'A';
    case _ =>
  }

  /** Two transport errors are described alike only if they are the same error, or both wrap
      underlying errors that are themselves described alike; in particular the status code
      of a server error can be read back from its description. */
  lemma ErrorDescriptionInjective(a: NetworkError, b: NetworkError)
    ensures ErrorDescription(a) == ErrorDescription(b) ==>
      a == b || (a.Unknown? && b.Unknown? && CauseDescription(a.cause) == CauseDescription(b.cause))
  {
    ErrorDescriptionInitial(a);
    ErrorDescriptionInitial(b);
    if ErrorDescription(a) == ErrorDescription(b) {
      if a.ServerError? && b.ServerError? {
        var p := "Server error occurred (Code: ";
        assert p + IntToString(a.code) + ")" == p + (IntToString(a.code) + ")");
        assert p + IntToString(b.code) + ")" == p + (IntToString(b.code) + ")");
        PrefixCancels(p, IntToString(a.code) + ")", IntToString(b.code) + ")");
        SuffixCancels(IntToString(a.code), IntToString(b.code), ")");
        IntToStringInjective(a.code, b.code);
      } else if a.DecodingError? && b.DecodingError? {
        PrefixCancels("Data format error: ", a.message, b.message);
      } else if a.Unknown? && b.Unknown? {
        PrefixCancels("An error occurred: ", CauseDescription(a.cause), CauseDescription(b.cause));
      }
    }
  }

  /** `describingDecodingError`: a message whose opening words name the kind of failure. */
  function DescribeDecodingError(e: Json.DecodingError): (m: string)
    ensures |e.debugDescription| < |m| && EndsWith(m, e.debugDescription)
  {
    match e
    case DataCorrupted(d) => "Data corrupted: " + d
    case KeyNotFound(key, d) => "Key '" + key + "' not found: " + d
    case TypeMismatch(t, d) => "Type '" + t + "' mismatch: " + d
    case ValueNotFound(t, d) => "Value of type '" + t + "' not found: " + d
  }

  /** The opening words of each kind's message. */
  function DecodingPrefix(e: Json.DecodingError): string {
    match e
    case DataCorrupted(_) => "Data corrupted: "
    case KeyNotFound(_, _) => "Key '"
    case TypeMismatch(_, _) => "Type '"
    case ValueNotFound(_, _) => "Value of type '"
  }

  /** Every message starts with its kind's prefix, and messages of different kinds always
      differ, so the four kinds stay distinguishable to the user. */
  lemma DecodingMessagesDistinguishKinds(a: Json.DecodingError, b: Json.DecodingError)
    ensures DecodingPrefix(a) <= DescribeDecodingError(a)
    ensures DecodingPrefix(a) != DecodingPrefix(b) ==> DescribeDecodingError(a) != DescribeDecodingError(b)
  {
    DecodingMessageStart(a);
    DecodingMessageStart(b);
  }

  lemma DecodingMessageStart(e: Json.DecodingError)
    ensures DecodingPrefix(e) <= DescribeDecodingError(e)
    ensures |DescribeDecodingError(e)| > 0 && DescribeDecodingError(e)[0] == DecodingPrefix(e)[0]
  {
    var rest := match e
      case DataCorrupted(c) => c
      case KeyNotFound(k, c) => k + "' not found: " + c
      case TypeMismatch(t, c) => t + "' mismatch: " + c
      case ValueNotFound(t, c) => t + "' not found: " + c;
    assert DescribeDecodingError(e) == DecodingPrefix(e) + rest;
    PrefixOfConcat(DecodingPrefix(e), rest);
  }

  lemma PrefixOfConcat(p: string, rest: string)
    requires |p| > 0
    ensures p <= p + rest && (p + rest)[0] == p[0]
  {
    assert (p + rest)[..|p|] == p;
  }

  /** What the transport produced for one request: an HTTP response (status code and body),
      a response that is not HTTP, or a thrown transport error (timeouts, TLS failures, lost
      connections), known by its description. */
  datatype Exchange<B> =
    | HttpResponse(statusCode: int, body: B)
    | NonHttpResponse
    | TransportError(description: string)

  /** The result of `request` once connectivity is known and the transport has answered:
      2xx decodes, 401/403 and every other status are server errors carrying the code,
      404 is a resolution failure; NetworkErrors pass through and any other error becomes
      `unknown`. */
  function RequestOutcome<B, T>(connected: bool, exchange: Exchange<B>, decode: B -> Result<T, Json.DecodingError>): (r: Result<T, NetworkError>)
    ensures !connected ==> r == Failure(NoInternetConnection)
    ensures r.Success? <==>
      connected && exchange.HttpResponse? && 200 <= exchange.statusCode <= 299 && decode(exchange.body).Success?
    ensures r.Success? ==> decode(exchange.body) == Success(r.value)
    ensures connected && exchange.HttpResponse? && 200 <= exchange.statusCode <= 299 && decode(exchange.body).Failure? ==>
      r == Failure(DecodingError(DescribeDecodingError(decode(exchange.body).error)))
    ensures connected && exchange.HttpResponse? && exchange.statusCode == 404 ==> r == Failure(DnsResolutionFailed)
    ensures r.Failure? && r.error.ServerError? <==>
      connected && exchange.HttpResponse? && !(200 <= exchange.statusCode <= 299) && exchange.statusCode != 404
    ensures r.Failure? && r.error.ServerError? ==> r.error.code == exchange.statusCode
    ensures connected && exchange.NonHttpResponse? ==> r == Failure(Unknown(InvalidResponse))
    ensures connected && exchange.TransportError? ==> r == Failure(Unknown(Foreign(exchange.description)))
  {
    if !connected then Failure(NoInternetConnection)
    else match exchange
      case TransportError(d) => Failure(Unknown(Foreign(d)))
      case NonHttpResponse => Failure(Unknown(InvalidResponse))
      case HttpResponse(status, body) =>
        if 200 <= status <= 299 then
          match decode(body)
          case Success(v) => Success(v)
          case Failure(e) => Failure(DecodingError(DescribeDecodingError(e)))
        else if status == 401 || status == 403 then Failure(ServerError(status))
        else if status == 404 then Failure(DnsResolutionFailed)
        else Failure(ServerError(status))
  }

  /** The request `request` hands to the transport. */
  datatype UrlRequest = UrlRequest(
    url: string,
    httpMethod: string,
    headers: map<string, string>,
    body: Option<seq<bv8>>,
    timeoutInterval: int)

  /** The shared transport. `isConnected` mirrors the last path status the monitor reported;
      it starts false. */
  class NetworkManager {
    var isConnected: bool

    constructor ()
      ensures !isConnected
    {
      isConnected := false;
    }

    /** The path monitor's update handler. */
    method PathUpdated(satisfied: bool)
      modifies this
      ensures isConnected == satisfied
    {
      isConnected := satisfied;
    }

    method CheckConnection() returns (r: Outcome<NetworkError>)
      ensures r.Pass? <==> isConnected
      ensures r.Fail? ==> r.error == NoInternetConnection
    {
      if !isConnected {
        return Fail(NoInternetConnection);
      }
      return Pass;
    }

    /** `request`: fails fast without touching the transport when offline; otherwise sends
        exactly one request, with the caller's method, headers and body and a 30-second
        timeout, and maps what `exchange` says the transport produced. */
    method Request<B, T>(url: string, httpMethod: string, headers: map<string, string>, body: Option<seq<bv8>>,
                         exchange: Exchange<B>, decode: B -> Result<T, Json.DecodingError>)
      returns (r: Result<T, NetworkError>, sent: Option<UrlRequest>)
      ensures sent.Some? <==> isConnected
      ensures sent.Some? ==> sent.value == UrlRequest(url, httpMethod, headers, body, 30)
      ensures r == RequestOutcome(isConnected, exchange, decode)
    {
      var connection := CheckConnection();
      if connection.Fail? {
        return Failure(connection.error), None;
      }
      var request := UrlRequest(url, "GET", map[], None, 60);
      request := request.(httpMethod := httpMethod);
      request := request.(headers := headers);
      request := request.(body := body);
      request := request.(timeoutInterval := 30);
      sent := Some(request);
      r := RequestOutcome(true, exchange, decode);
    }
  }
}
