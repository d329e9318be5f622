/** Swift's `Error` existential as the core meets it: one of the typed error kinds, or an
    error from code outside the model (Foundation's decoder, the keychain) known only by its
    localized description. */
module Failures {
  import Network
  import CloudflareModels
  import ProviderErrors

  datatype Failure =
    | NetworkFailure(net: Network.NetworkError)
    | ServiceFailure(service: CloudflareModels.CloudflareServiceError)
    | ProviderFailure(provider: ProviderErrors.ProviderError)
    | ForeignFailure(description: string)

  /** `error.localizedDescription`: a LocalizedError's `errorDescription`, which for the
      core's error kinds is never nil. */
  function LocalizedDescription(f: Failure): (d: string)
    ensures f.NetworkFailure? ==> d == Network.ErrorDescription(f.net).value
    ensures f.ServiceFailure? ==> d == CloudflareModels.ServiceErrorDescription(f.service).value
    ensures f.ProviderFailure? ==> d == ProviderErrors.ProviderErrorDescription(f.provider).value
    ensures f.ForeignFailure? ==> d == f.description
  {
    match f
    case NetworkFailure(e) => Network.ErrorDescription(e).value
    case ServiceFailure(e) => CloudflareModels.ServiceErrorDescription(e).value
    case ProviderFailure(e) => ProviderErrors.ProviderErrorDescription(e).value
    case ForeignFailure(d) => d
  }
}
