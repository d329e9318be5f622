/** The provider-abstraction error kinds (dotDNS/Models/ProviderError.swift). */
module ProviderErrors {
  import opened Wrappers
  import opened Text
  import Network

  datatype ProviderError =
    | UnsupportedProvider
    | InvalidCredentials
    | ApiError(message: string)
    | NetworkError(error: Network.NetworkError)

  /** `errorDescription`; never nil. A wrapped transport error is described by its own
      description. */
  function ProviderErrorDescription(e: ProviderError): (r: Option<string>)
    ensures r.Some?
    ensures e.NetworkError? ==> r == Network.ErrorDescription(e.error)
  {
    match e
    case UnsupportedProvider => Some("This DNS provider is not yet supported")
    case InvalidCredentials => Some("Invalid provider credentials")
    case ApiError(message) => Some("Provider API Error: " + message)
    case NetworkError(error) => Some(Network.ErrorDescription(error).value)
  }

  /** Distinct provider errors get distinct descriptions, up to wrapped transport errors
      whose underlying causes are themselves described alike. */
  lemma ProviderErrorDescriptionInjective(a: ProviderError, b: ProviderError)
    ensures ProviderErrorDescription(a) == ProviderErrorDescription(b) ==>
      a == b || (a.NetworkError? && b.NetworkError? && a.error.Unknown? && b.error.Unknown?
                 && Network.CauseDescription(a.error.cause) == Network.CauseDescription(b.error.cause))
  {
    var da, db := ProviderErrorDescription(a).value, ProviderErrorDescription(b).value;
    ProviderErrorInitial(a);
    ProviderErrorInitial(b);
    if da == db {
      if a.ApiError? && b.ApiError? {
        PrefixCancels("Provider API Error: ", a.message, b.message);
      } else if a.NetworkError? && b.NetworkError? {
        Network.ErrorDescriptionInjective(a.error, b.error);
      }
    }
  }

  /** Each kind's description opens with its own letter. The one pair that shares an initial,
      "Invalid provider credentials" and a wrapped "Invalid URL configuration.", is told apart
      by the ninth character ('p' against 'U'); the injectivity proof above relies on it. */
  lemma ProviderErrorInitial(e: ProviderError)
    ensures |ProviderErrorDescription(e).value| > 8
    ensures ProviderErrorDescription(e).value[0] ==
      match e
      case UnsupportedProvider => 'T'
      case InvalidCredentials => 'I'
      case ApiError(_) => 'P'
      case NetworkError(n) => Network.ErrorDescription(n).value[0]
    ensures e.InvalidCredentials? ==> ProviderErrorDescription(e).value[8] == 'p'
    ensures e.NetworkError? && e.error.InvalidUrl? ==> ProviderErrorDescription(e).value[8] == 'U'
    ensures e.NetworkError? ==> ProviderErrorDescription(e).value[0] != 'I' || e.error.InvalidUrl?
  {
    match e {
      case ApiError(m) => assert ("Provider API Error: " + m)[0] == 'P';
      case NetworkError(n) =>
        Network.ErrorDescriptionInitial(n);
        match n {
          case NoInternetConnection =>
            assert |"No internet connection. "| > 8;
          case DnsResolutionFailed =>
            assert |"Unable to connect to server. "| > 8;
          case ServerError(code) =>
            assert |"Server error occurred (Code: "| > 8;
          case DecodingError(m) =>
            assert |"Data format error: "| > 8;
          case Unknown(c) =>
            assert |"An error occurred: "| > 8;
          case InvalidUrl =>
        }
      case _ =>
    }
  }
}
