# dotDNS core, modelled in Dafny

dotDNS is a macOS app for managing DNS across several hosting providers, of which only
Cloudflare is implemented. This project models the core of the app:

- **Stored providers.** The registry of configured providers is a JSON list in the user defaults. Providers are added, replaced by id and removed by id (`Storage`).
- **Provider values.** The provider value, with its identity by `id`, its provider-type names and its tagged credentials encoding (`Providers`).
- **Cloudflare wire types.** The Cloudflare credentials, envelopes, user details, zones and error kinds, with their JSON shapes (`CloudflareModels`, `CloudflareDomains`).
- **HTTP layer.** The HTTP wrapper maps connectivity, status codes and decoding failures onto `NetworkError` (`Network`).
- **Cloudflare service.** It picks authentication headers, calls `/zones`, `/user` and `/user/tokens/verify`, and turns vendor envelopes into results or errors (`Cloudflare`).
- **View models.** Four view models drive the domain list, the add-provider form, the add-record form and the record list (`DomainList`, `AddProvider`, `AddRecord`, `RecordList`).
- **Error kinds.** The provider error kinds (`ProviderErrors`), and the `Error` existential with its `localizedDescription` (`Failures`).

Foundation's keyed JSON coding is modelled on an abstract `Json` value (`Json`). A required key that is
missing is `keyNotFound`. A required key holding null is `valueNotFound`. A value of the wrong kind
is `typeMismatch`. `decodeIfPresent` reads a missing key or a null as absent.
Swift's decimal rendering of integers, used in error texts, is in `Text`.

The network, the user defaults and the keychain are not called. Each is a value the caller
supplies:

- **Network.** Its reply to each endpoint is a `Remote` (a decoded envelope or an error), or an `Exchange` for the HTTP wrapper.
- **User defaults.** The stored list is a field.
- **Keychain.** It is a function telling which save throws.

Service methods return the requests they would send, so "nothing was sent" is an empty list.

## Model

| member | source | states |
|---|---|---|
| Providers.FromRawValue | dotDNS/Models/Provider.swift:29-34 | a recognised raw value names a type whose raw value is that string |
| Providers.RawValueRoundTrip | dotDNS/Models/Provider.swift:29-34 | each provider type is recovered from its raw value, and no two types share one |
| Providers.EncodeProviderCredentials | dotDNS/Models/Provider.swift:43-50 | the encoding is an object with exactly the keys `type` and `credentials`; `type` is "cloudflare" for Cloudflare credentials |
| Providers.DecodeProviderCredentials | dotDNS/Models/Provider.swift:52-62 | a decoded value came from an object whose `type` names its case; any other `type` string is rejected as data corrupted "Unknown provider type" |
| Providers.ProviderCredentialsRoundTrip | dotDNS/Models/Provider.swift:36-63 | decoding the encoding gives the credentials back |
| Providers.NewProvider | dotDNS/Models/Provider.swift:11-18 | a new provider is not connected and has no e-mail and no credentials |
| Providers.ProviderEqualityById | dotDNS/Models/Provider.swift:20-26 | provider equality is an equivalence that holds exactly when ids agree, and equal providers hash alike |
| Providers.EncodeProvider | dotDNS/Models/Provider.swift:3-9 | the synthesized encoding carries the id and the type's raw value; `credentials` is present exactly when set |
| Providers.DecodeProviderType | dotDNS/Models/Provider.swift:29-34 | a decoded type came from a string holding its raw value |
| Providers.DecodeProvider | dotDNS/Models/Provider.swift:3-9 | a decoded provider's id is the object's `id` string |
| Providers.ProviderRoundTrip | dotDNS/Models/Provider.swift:3-9 | decoding an encoded provider gives it back, credentials included |
| Providers.EncodeProviders | dotDNS/Services/ProviderStorage.swift:10-14 | the stored list is an array with one encoded provider per entry, in order |
| Providers.ProvidersRoundTrip | dotDNS/Services/ProviderStorage.swift:10-23 | loading what was saved gives the same list |
| Providers.DecodeProviders | dotDNS/Services/ProviderStorage.swift:21-22 | the stored value loads exactly when it is an array whose every element decodes as a provider, giving one provider per element in order; anything but an array is a type mismatch |
| CloudflareModels.WithToken | dotDNS/Models/CloudflareModels.swift:15-17 | token credentials carry only the token, and can authenticate |
| CloudflareModels.WithGlobalKey | dotDNS/Models/CloudflareModels.swift:19-21 | global-key credentials carry only the e-mail and key, and can authenticate |
| CloudflareModels.EncodeCredentials | dotDNS/Models/CloudflareModels.swift:4-9 | each optional field is encoded exactly when present |
| CloudflareModels.DecodeCredentials | dotDNS/Models/CloudflareModels.swift:4-9 | an empty object decodes to credentials with nothing set; a non-object is rejected |
| CloudflareModels.CredentialsRoundTrip | dotDNS/Models/CloudflareModels.swift:4-9 | decoding the encoding gives the credentials back |
| CloudflareModels.DecodeApiError | dotDNS/Models/CloudflareModels.swift:32-35 | a decoded API error came from an object with `code` and `message` |
| CloudflareModels.ApiErrorRoundTrip | dotDNS/Models/CloudflareModels.swift:32-35 | decoding an encoded API error gives it back |
| CloudflareModels.EncodeApiErrors | dotDNS/Models/CloudflareModels.swift:27 | one encoded entry per error, in order |
| CloudflareModels.ApiErrorsRoundTrip | dotDNS/Models/CloudflareModels.swift:27 | an error list survives encoding and decoding |
| CloudflareModels.EncodeEnvelope | dotDNS/Models/CloudflareModels.swift:25-30 | the `result` key is present exactly when the envelope has a result |
| CloudflareModels.DecodeEnvelope | dotDNS/Models/CloudflareModels.swift:25-30 | a decoded envelope had `success`, `errors` and `messages`; a decoded result came from a `result` key |
| CloudflareModels.EnvelopeRoundTrip | dotDNS/Models/CloudflareModels.swift:25-30 | an envelope survives encoding and decoding whenever its result does |
| CloudflareModels.FullNameCases | dotDNS/Models/CloudflareModels.swift:55-57 | the full name is both names joined by one space, just the present one, or empty |
| CloudflareModels.ServiceErrorDescription | dotDNS/Models/CloudflareModels.swift:67-78 | every service error has a description |
| CloudflareModels.ServiceErrorDescriptionInjective | dotDNS/Models/CloudflareModels.swift:67-78 | different service errors never share a description |
| CloudflareModels.ServiceErrorInitial | dotDNS/Models/CloudflareModels.swift:67-78 | each kind's description starts with its own letter (I, C, R, N) |
| CloudflareDomains.EncodeDomain | dotDNS/Models/CloudflareDomain.swift:3-17 | the name-server lists are encoded under `name_servers` and `original_name_servers`, exactly when present |
| CloudflareDomains.DecodeDomain | dotDNS/Models/CloudflareDomain.swift:3-17 | a decoded zone took id, name and status from the object; a missing or null name-server key reads as absent |
| CloudflareDomains.DomainRoundTrip | dotDNS/Models/CloudflareDomain.swift:3-17 | a zone survives encoding and decoding |
| CloudflareDomains.EncodeDomains | dotDNS/Models/CloudflareDomain.swift:21 | one encoded zone per zone, in order |
| CloudflareDomains.DecodeDomainsResponse | dotDNS/Models/CloudflareDomain.swift:26-43 | a decoded response had all four keys, its `success` flag and zone count taken from them; when the first three keys decode, a failure decoding the zone list is rethrown unchanged |
| CloudflareDomains.DomainsResponseKeysRequired | dotDNS/Models/CloudflareDomain.swift:26-43 | a missing `success` is reported as that key not found; a missing `errors` after a boolean `success` is a key-not-found error; a missing `messages` or `result` fails the decode |
| CloudflareDomains.DomainsResponseRoundTrip | dotDNS/Models/CloudflareDomain.swift:20-44 | a zones response survives encoding and decoding |
| Dns.DomainStatusFromRawValue | dotDNS/Models/Domain.swift:11-15 | a recognised raw value names a status whose raw value is that string |
| Dns.DomainStatusRawValueRoundTrip | dotDNS/Models/Domain.swift:11-15 | each status is recovered from its raw value, and no two statuses share one |
| Dns.RecordTypeFromRawValue | dotDNS/Models/DNSRecord.swift:3-10 | a recognised raw value names a record type whose raw value is that string |
| Dns.RecordTypeRawValueRoundTrip | dotDNS/Models/DNSRecord.swift:3-10 | each record type is recovered from its raw value, and no two types share one |
| ProviderErrors.ProviderErrorDescription | dotDNS/Models/ProviderError.swift:9-20 | every provider error has a description; a wrapped network error shows the network error's own |
| ProviderErrors.ProviderErrorDescriptionInjective | dotDNS/Models/ProviderError.swift:9-20 | different provider errors never share a description, except wrapped unknown network errors with equal texts |
| ProviderErrors.ProviderErrorInitial | dotDNS/Models/ProviderError.swift:9-20 | each kind's description has its own first letter, and the provider's invalid-credentials text differs from the wrapped invalid-URL text at the ninth character |
| Network.ErrorDescription | dotDNS/Services/NetworkManager.swift:12-27 | every network error has a description |
| Network.ErrorDescriptionInitial | dotDNS/Services/NetworkManager.swift:12-27 | each kind's description starts with its own letter (N, U, I, S, D, A) |
| Network.ErrorDescriptionInjective | dotDNS/Services/NetworkManager.swift:12-27 | different network errors never share a description, except unknown errors with equal underlying texts |
| Network.DescribeDecodingError | dotDNS/Services/NetworkManager.swift:110-123 | every decoding-error message ends with Foundation's debug description and says more than it |
| Network.DecodingMessagesDistinguishKinds | dotDNS/Services/NetworkManager.swift:110-123 | each decoding-error message starts with its kind's prefix, so messages of different kinds differ |
| Network.DecodingMessageStart | dotDNS/Services/NetworkManager.swift:110-123 | every decoding-error message is non-empty and opens with its kind's prefix |
| Network.RequestOutcome | dotDNS/Services/NetworkManager.swift:66-107 | offline is no-connection; success iff 2xx and the body decodes; a 2xx decode failure is a decoding error with its description; 404 is DNS resolution failed; other non-2xx codes are server errors carrying the code; a non-HTTP response or a transport error is unknown |
| Network.NetworkManager.PathUpdated | dotDNS/Services/NetworkManager.swift:41-48 | connectivity follows the path monitor's last report |
| Network.NetworkManager.CheckConnection | dotDNS/Services/NetworkManager.swift:54-58 | passes exactly when connected, otherwise no-connection |
| Network.NetworkManager.Request | dotDNS/Services/NetworkManager.swift:60-108 | a request goes out exactly when connected, with the given method, headers and body and a 30-second timeout; the result is the request outcome |
| Failures.LocalizedDescription | dotDNS/Features/Providers/ViewModels/AddProviderViewModel.swift:59-68 | a network, service or provider error shows its own `errorDescription`; an error from outside the core shows the description it carries |
| Storage.FirstIndexWithId | dotDNS/Services/ProviderStorage.swift:33 | the first position holding the id, or none exactly when no entry has it |
| Storage.RemoveAllWithId | dotDNS/Services/ProviderStorage.swift:41 | no survivor has the id, and the list never grows |
| Storage.RemoveAllMembers | dotDNS/Services/ProviderStorage.swift:41 | after removal exactly the entries with other ids remain |
| Storage.RemoveAllConcat | dotDNS/Services/ProviderStorage.swift:41 | removal distributes over concatenation, so order is kept |
| Storage.RemoveAllNoMatch | dotDNS/Services/ProviderStorage.swift:41 | removing an absent id changes nothing |
| Storage.RemoveAllIdempotent | dotDNS/Services/ProviderStorage.swift:39-43 | removing twice is removing once |
| Storage.UpdateTouchesFirstMatchOnly | dotDNS/Services/ProviderStorage.swift:31-37 | an update replaces the first entry with the id and keeps every other entry |
| Storage.ProviderStorage.LoadProviders | dotDNS/Services/ProviderStorage.swift:16-23 | nothing stored loads as the empty list, otherwise the stored list |
| Storage.ProviderStorage.SaveProviders | dotDNS/Services/ProviderStorage.swift:10-14 | the saved list replaces what was stored |
| Storage.ProviderStorage.AddProvider | dotDNS/Services/ProviderStorage.swift:25-29 | the provider is appended after the loaded list |
| Storage.ProviderStorage.UpdateProvider | dotDNS/Services/ProviderStorage.swift:31-37 | an unknown id leaves the store untouched; otherwise the first matching entry is replaced |
| Storage.ProviderStorage.RemoveProvider | dotDNS/Services/ProviderStorage.swift:39-43 | every entry with the id is removed and the rest are stored in order |
| Cloudflare.CloudflareService.MakeHeaders | dotDNS/Services/Providers/CloudflareService.swift:22-33 | headers exist exactly when the credentials can authenticate; a token wins over e-mail and key; otherwise invalid credentials |
| Cloudflare.CloudflareService.MakeRequest | dotDNS/Services/Providers/CloudflareService.swift:13-54 | unusable credentials fail before anything is sent; otherwise one request to the endpoint, whose reply is the result |
| Cloudflare.CloudflareService.GetDomains | dotDNS/Services/Providers/CloudflareService.swift:56-75 | the zones exactly when the envelope says success; a failed envelope is an API error with its first message, or "Unknown error" |
| Cloudflare.CloudflareService.GetUserDetails | dotDNS/Services/Providers/CloudflareService.swift:93-103 | the details exactly when the envelope says success and carries them; a transport or decoding error is passed on, otherwise the error is "Failed to get user details" |
| Cloudflare.CloudflareService.VerifyCredentials | dotDNS/Services/Providers/CloudflareService.swift:77-91 | a token passes exactly when it verifies as active, failing with the transport's error or invalid credentials; e-mail and key pass exactly when the user details arrive, failing with the user fetch's error |
| Cloudflare.CloudflareService.constructor | dotDNS/Services/Providers/CloudflareService.swift:8-11 | the service keeps the credentials it is given |
| Cloudflare.FirstErrorMessage | dotDNS/Services/Providers/CloudflareService.swift:70-72 | the first API error's message, or "Unknown error" when the envelope carries none |
| Cloudflare.UserFetchError | dotDNS/Services/Providers/CloudflareService.swift:93-100 | a transport or decoding error is passed on unchanged; an envelope without the details becomes the API error "Failed to get user details" |
| DomainList.ZonesToDomains | dotDNS/Features/Domains/ViewModels/DomainListViewModel.swift:32-39 | one domain per zone with its name and the view model's provider; active exactly for "active" zones, never transferring, no records counted |
| DomainList.ToDomain | dotDNS/Features/Domains/ViewModels/DomainListViewModel.swift:32-39 | a zone keeps its name under the view model's provider, is active exactly when the vendor says "active", never transferring, with no records counted |
| DomainList.DomainListViewModel.constructor | dotDNS/Features/Domains/ViewModels/DomainListViewModel.swift:12-19 | a service exists exactly when the provider has credentials, and uses them |
| DomainList.DomainListViewModel.LoadDomains | dotDNS/Features/Domains/ViewModels/DomainListViewModel.swift:21-43 | without a service only the error message is set; zones replace the list on success; on failure the list is kept and the error described; loading is off on exit |
| AddProvider.FormCredentialsAuthenticate | dotDNS/Features/Providers/ViewModels/AddProviderViewModel.swift:76-80 | the form's credentials always authenticate, in exactly the style chosen |
| AddProvider.KeychainDeterminesCredentials | dotDNS/Features/Providers/ViewModels/AddProviderViewModel.swift:104-122 | the keychain entries written pin down the credentials they came from |
| AddProvider.KeychainEntries | dotDNS/Features/Providers/ViewModels/AddProviderViewModel.swift:104-122 | one entry per credential of the chosen style, in order, each under its own "cloudflare"-prefixed key and holding that credential |
| AddProvider.ConnectionFailure | dotDNS/Features/Providers/ViewModels/AddProviderViewModel.swift:84-86 | verification fails exactly when the token is not active (token style) or the user details do not arrive; the error is the token check's transport error, invalid credentials, or the user fetch's error |
| AddProvider.AddProviderViewModel.constructor | dotDNS/Features/Providers/ViewModels/AddProviderViewModel.swift:5-16 | the form starts on Cloudflare with a token, saving and verifying on, and nothing entered |
| AddProvider.AddProviderViewModel.IsValid | dotDNS/Features/Providers/ViewModels/AddProviderViewModel.swift:26-37 | valid exactly for Cloudflare forms none of whose keychain values would be empty |
| AddProvider.AddProviderViewModel.ValidFormFilled | dotDNS/Features/Providers/ViewModels/AddProviderViewModel.swift:26-37 | valid exactly for Cloudflare with the chosen style's credentials all non-empty |
| AddProvider.AddProviderViewModel.AddCloudflareProvider | dotDNS/Features/Providers/ViewModels/AddProviderViewModel.swift:73-102 | with verification, passes exactly when the credentials verify and the user details arrive, then shows the name and e-mail and returns a connected provider named after the account e-mail; a failure throws the verification's own error; without verification nothing is sent or created |
| AddProvider.AddProviderViewModel.SaveToKeychain | dotDNS/Features/Providers/ViewModels/AddProviderViewModel.swift:104-122 | the form's entries are saved in order until one throws; passes exactly when every save goes through |
| AddProvider.AddProviderViewModel.Attempt | dotDNS/Features/Providers/ViewModels/AddProviderViewModel.swift:45-57 | the provider is created first and the credentials saved only if that succeeded; a failed connection throws its verification error and saves nothing; saving stops at the first save that throws, and that save's error is thrown |
| AddProvider.AddProviderViewModel.AddProvider | dotDNS/Features/Providers/ViewModels/AddProviderViewModel.swift:39-71 | an invalid form changes nothing; otherwise authenticated exactly when nothing threw, and a thrown error's description is shown. A failed connection leaves the form unauthenticated with the verification error. With saving off, the form is authenticated exactly when verification is off or the provider was created. With saving on, the saves stop at the first that throws, and that save's error is the one thrown and shown. The account's name and e-mail are shown on success. Loading is off on exit and the inputs are unchanged |
| AddRecord.BuildRecord | dotDNS/Features/Records/ViewModels/AddDNSRecordViewModel.swift:23-30 | the priority is kept exactly for MX and SRV records; the record carries the form's fields and the domain's provider |
| AddRecord.AddDnsRecordViewModel.constructor | dotDNS/Features/Records/ViewModels/AddDNSRecordViewModel.swift:5-11 | the form starts as an A record with TTL 3600 and priority 0 |
| AddRecord.AddDnsRecordViewModel.IsValid | dotDNS/Features/Records/ViewModels/AddDNSRecordViewModel.swift:13-15 | valid exactly when the name and content are non-empty and the TTL is at least 60 |
| AddRecord.AddDnsRecordViewModel.AddRecordToProvider | dotDNS/Features/Records/ViewModels/AddDNSRecordViewModel.swift:40-55 | no provider type does anything yet, so it never fails |
| AddRecord.AddDnsRecordViewModel.AddRecord | dotDNS/Features/Records/ViewModels/AddDNSRecordViewModel.swift:17-38 | an invalid form changes nothing; a valid one submits the record built from it, shows no error, and loading is off on exit |
| AddRecord.TtlFloor | dotDNS/Features/Records/ViewModels/AddDNSRecordViewModel.swift:13-15 | with a name and content, the form is valid exactly when the TTL is at least 60: 59 is rejected and 60 accepted |
| RecordList.RemoveInTurn | dotDNS/Features/Records/ViewModels/DNSRecordListViewModel.swift:28-32 | removing the indices one after another shortens the list by their number |
| RecordList.Unselected | dotDNS/Features/Records/ViewModels/DNSRecordListViewModel.swift:24-36 | the intended deletion keeps at most the records it was given |
| RecordList.UnselectedMembers | dotDNS/Features/Records/ViewModels/DNSRecordListViewModel.swift:24-36 | a record survives the intended deletion exactly when it stands at an unselected position |
| RecordList.AscendingDeleteShiftsIndices | dotDNS/Features/Records/ViewModels/DNSRecordListViewModel.swift:28-32 | for [a, b, c] and rows {0, 1} the loop as written keeps b where c was meant; rows {1, 2} run past the end |
| RecordList.SingleDeleteAgrees | dotDNS/Features/Records/ViewModels/DNSRecordListViewModel.swift:28-32 | for a single row both loops remove the same record |
| RecordList.DnsRecordListViewModel.constructor | dotDNS/Features/Records/ViewModels/DNSRecordListViewModel.swift:6-8 | the list starts empty, not loading, without error |
| RecordList.DnsRecordListViewModel.LoadRecords | dotDNS/Features/Records/ViewModels/DNSRecordListViewModel.swift:12-18 | only the loading flag moves, and it is off on exit |
| RecordList.DnsRecordListViewModel.DeleteRecord | dotDNS/Features/Records/ViewModels/DNSRecordListViewModel.swift:38-41 | deleting one record never fails |
| RecordList.DnsRecordListViewModel.DeleteRecords | dotDNS/Features/Records/ViewModels/DNSRecordListViewModel.swift:24-36 | as written: an empty list is left alone; otherwise the indices are applied in turn to the shrinking list, which loses one record per index |
| RecordList.DnsRecordListViewModel.DeleteRecordsAtOffsets | dotDNS/Features/Records/ViewModels/DNSRecordListViewModel.swift:24-36 | corrected: exactly the records at unselected positions remain, in order, one fewer per selected row |

## Left out

- **Stored data.** Saving and loading go through a stored `Option<seq<Provider>>` field. The JSON text in the user defaults, and a stored value that fails to decode, are not modelled. The Provider codec and its round trip are proved separately.
- **UUIDs.** Generation is left out: new ids are parameters. The ids of `Domain` and `DNSRecord` are freshly generated and never read by the core, so they are omitted. A provider id is any string, so the decoder's rejection of a malformed UUID string is not modelled.
- **Repeated calls to one endpoint.** `Remote` holds one reply per endpoint, so two calls to the same endpoint get the same reply. With e-mail and key, `addCloudflareProvider` fetches `/user` twice (verification, then the details); the model cannot describe the first fetch succeeding and the second failing.
- **JSON text.** Byte-level parsing, the UTF-8 debug rendering and `convertFromSnakeCase` are not modelled. Decoding works on an abstract JSON value with the keys as written in the types. The HTTP wrapper's decode and the service's second decode are one caller-supplied decode.
- **Foundation's error texts.** The context texts inside Foundation's `DecodingError` and `URLError` are parameters (`debugDescription`, `Foreign`).
- **Unknown decoding errors.** The `@unknown default` case of `describingDecodingError` has no counterpart: the four decoding-error kinds are all there are.
- **URL construction.** `URL(string:)` never fails for the fixed base URL and endpoints, so the `invalidURL` path of `makeRequest` is unreachable and not modelled. `NetworkError.invalidURL` itself is modelled.
- **Network activity.** Debug prints, the path monitor's threads, `deinit`, and the URL session's timing are not modelled. The 30-second timeout is recorded in the request.
- **Concurrency.** Actors, `Task` and `@MainActor` are left out: each call runs to completion.
- **Context classes.** `ProvidersViewModel`, `DashboardViewModel` and `Constants` are not part of this model. A provider created by `addCloudflareProvider` is returned instead of being appended there.
- **Keychain.** `KeychainService` is not part of this model: saves are judged by a caller-supplied function.
- **Record operations.** `editRecord` is an empty hook, and so are the record loading and record creation stubs. Only their effect on the view-model state is modelled.
- **`CloudflareTokenStatus`.** The top-level type is unused by the core, so it is not modelled. The service's nested `TokenStatus` is.
- **Rate-limit and service network errors.** The service never raises `rateLimitExceeded` or `networkError`. They appear only in the error descriptions.
- **Thrown values.** Errors raised by code outside the model (Foundation's decoder, the keychain) are known only by their localized description (`ForeignFailure`). The core's own error kinds are modelled whole. `AddProvider`'s three catch clauses behave identically and are one case.
- **Delete failures.** DnsRecordListViewModel.DeleteRecords: the catch clause is unreachable because `deleteRecord` never throws, so it is not modelled.

## Findings

| source | as written | input that shows it | evidently intended | confidence | as-written member | corrected member |
|---|---|---|---|---|---|---|
| dotDNS/Features/Records/ViewModels/DNSRecordListViewModel.swift:28-32 | the selected indices are visited in ascending order and each is removed from the list the earlier removals already shortened | records [a, b, c] with rows {0, 1} selected leave [b]; rows {1, 2} make the second removal index past the end and trap | delete exactly the selected rows, for example by removing from the highest index down, leaving [c] | high: not executed | RecordList.AscendingDeleteShiftsIndices | RecordList.DnsRecordListViewModel.DeleteRecordsAtOffsets |
