/** The Cloudflare v4 client (dotDNS/Services/Providers/CloudflareService.swift): header
    selection from the credentials, and the unwrapping of each endpoint's envelope.
    The transport and JSON decoding are not modelled here: a Remote value says what each
    endpoint's call would yield, a decoded envelope or an error. */
module Cloudflare {
  import opened Wrappers
  import opened CloudflareModels
  import opened CloudflareDomains
  import opened Failures

  const BaseUrl := "https://api.cloudflare.com/client/v4"

  datatype Endpoint = Zones | User | TokenVerify

  function Path(e: Endpoint): string {
    match e
    case Zones => "/zones"
    case User => "/user"
    case TokenVerify => "/user/tokens/verify"
  }

  /** A request handed to the transport. */
  datatype SentRequest = SentRequest(url: string, httpMethod: string, headers: map<string, string>)

  /** `TokenVerifyResponse`: its `result` is required, the token's `status` is not. */
  datatype TokenStatus = TokenStatus(id: string, status: Option<string>, tokenType: Option<string>)
  datatype TokenMessage = TokenMessage(code: Option<int>, message: string)
  datatype TokenVerifyResponse = TokenVerifyResponse(
    success: bool,
    errors: seq<ApiErrorEntry>,
    messages: seq<TokenMessage>,
    result: TokenStatus)

  /** `UserDetailsResponse` has the shape of the generic envelope, with an optional result. */
  type UserDetailsResponse = Envelope<UserDetails>

  /** What a call to each endpoint would yield, once transport and decoding are done. */
  datatype Remote = Remote(
    zones: Result<DomainsResponse, Failure>,
    tokenVerify: Result<TokenVerifyResponse, Failure>,
    user: Result<UserDetailsResponse, Failure>)

  /** The header policy: JSON content type always; a bearer token when there is one and then
      no X-Auth headers; otherwise the e-mail and global key as X-Auth headers. */
  predicate SelectedHeaders(c: CloudflareCredentials, h: map<string, string>) {
    && "Content-Type" in h && h["Content-Type"] == "application/json"
    && (c.token.Some? ==>
          && "Authorization" in h && h["Authorization"] == "Bearer " + c.token.value
          && "X-Auth-Email" !in h && "X-Auth-Key" !in h)
    && (c.token.None? ==>
          && c.email.Some? && c.globalApiKey.Some?
          && "X-Auth-Email" in h && h["X-Auth-Email"] == c.email.value
          && "X-Auth-Key" in h && h["X-Auth-Key"] == c.globalApiKey.value
          && "Authorization" !in h)
    && h.Keys <= {"Content-Type", "Authorization", "X-Auth-Email", "X-Auth-Key"}
  }

  /** `response.errors.first?.message ?? "Unknown error"`. */
  function FirstErrorMessage(errors: seq<ApiErrorEntry>): (m: string)
    ensures errors != [] ==> m == errors[0].message
    ensures errors == [] ==> m == "Unknown error"
  {
    if |errors| > 0 then errors[0].message else "Unknown error"
  }

  /** The error `getUserDetails` throws for a reply that does not deliver the details: the
      transport's or decoder's own error, or an API error for an unsuccessful or empty envelope. */
  function UserFetchError(reply: Result<UserDetailsResponse, Failure>): (f: Failure)
    ensures reply.Failure? ==> f == reply.error
    ensures reply.Success? ==> f == ServiceFailure(ApiError("Failed to get user details"))
  {
    if reply.Failure? then reply.error else ServiceFailure(ApiError("Failed to get user details"))
  }

  class CloudflareService {
    const credentials: CloudflareCredentials

    constructor (credentials: CloudflareCredentials)
      ensures this.credentials == credentials
    {
      this.credentials := credentials;
    }

    /** Exactly one GET of `endpoint`, authenticated by the header policy. */
    predicate SentOnce(sent: seq<SentRequest>, endpoint: Endpoint) {
      && |sent| == 1
      && sent[0].url == BaseUrl + Path(endpoint)
      && sent[0].httpMethod == "GET"
      && SelectedHeaders(credentials, sent[0].headers)
    }

    /** The header dictionary `makeRequest` builds, or `invalidCredentials` when neither a
        token nor an e-mail with a key is present. */
    method MakeHeaders() returns (r: Result<map<string, string>, CloudflareServiceError>)
      ensures r.Success? <==> credentials.CanAuthenticate()
      ensures r.Failure? ==> r.error == InvalidCredentials
      ensures r.Success? ==> SelectedHeaders(credentials, r.value)
    {
      var headers := map["Content-Type" := "application/json"];
      if credentials.token.Some? {
        headers := headers["Authorization" := "Bearer " + credentials.token.value];
      } else if credentials.email.Some? && credentials.globalApiKey.Some? {
        headers := headers["X-Auth-Email" := credentials.email.value];
        headers := headers["X-Auth-Key" := credentials.globalApiKey.value];
      } else {
        return Failure(InvalidCredentials);
      }
      return Success(headers);
    }

    /** `makeRequest`: headers first, so bad credentials fail before any request is sent;
        otherwise one request, whose outcome is `reply`. */
    method MakeRequest<T>(endpoint: Endpoint, reply: Result<T, Failure>) returns (r: Result<T, Failure>, sent: seq<SentRequest>)
      ensures !credentials.CanAuthenticate() ==> r == Failure(ServiceFailure(InvalidCredentials)) && sent == []
      ensures credentials.CanAuthenticate() ==> r == reply && SentOnce(sent, endpoint)
    {
      var headers := MakeHeaders();
      if headers.Failure? {
        return Failure(ServiceFailure(headers.error)), [];
      }
      sent := [SentRequest(BaseUrl + Path(endpoint), "GET", headers.value)];
      r := reply;
    }

    /** `getDomains`: the zone list when the envelope reports success; otherwise an API error
        carrying the first vendor message. */
    method GetDomains(remote: Remote) returns (r: Result<seq<CloudflareDomain>, Failure>, sent: seq<SentRequest>)
      ensures !credentials.CanAuthenticate() ==> r == Failure(ServiceFailure(InvalidCredentials)) && sent == []
      ensures credentials.CanAuthenticate() ==> SentOnce(sent, Zones)
      ensures r.Success? <==>
        credentials.CanAuthenticate() && remote.zones.Success? && remote.zones.value.success
      ensures r.Success? ==> r.value == remote.zones.value.result
      ensures credentials.CanAuthenticate() && remote.zones.Failure? ==> r == Failure(remote.zones.error)
      ensures credentials.CanAuthenticate() && remote.zones.Success? && !remote.zones.value.success ==>
        r == Failure(ServiceFailure(ApiError(FirstErrorMessage(remote.zones.value.errors))))
    {
      var response;
      response, sent := MakeRequest(Zones, remote.zones);
      if response.Failure? {
        return Failure(response.error), sent;
      }
      if !response.value.success {
        return Failure(ServiceFailure(ApiError(FirstErrorMessage(response.value.errors)))), sent;
      }
      r := Success(response.value.result);
    }

    /** `getUserDetails`: the details when the envelope reports success and carries them;
        a successful envelope without a result is an API error too. */
    method GetUserDetails(remote: Remote) returns (r: Result<UserDetails, Failure>, sent: seq<SentRequest>)
      ensures !credentials.CanAuthenticate() ==> r == Failure(ServiceFailure(InvalidCredentials)) && sent == []
      ensures credentials.CanAuthenticate() ==> SentOnce(sent, User)
      ensures r.Success? <==>
        credentials.CanAuthenticate() && remote.user.Success? && remote.user.value.success
        && remote.user.value.result.Some?
      ensures r.Success? ==> r.value == remote.user.value.result.value
      ensures credentials.CanAuthenticate() && remote.user.Failure? ==> r == Failure(remote.user.error)
      ensures (credentials.CanAuthenticate() && remote.user.Success?
               && !(remote.user.value.success && remote.user.value.result.Some?))
        ==> r == Failure(ServiceFailure(ApiError("Failed to get user details")))
      ensures credentials.CanAuthenticate() && r.Failure? ==> r.error == UserFetchError(remote.user)
    {
      var response;
      response, sent := MakeRequest(User, remote.user);
      if response.Failure? {
        return Failure(response.error), sent;
      }
      if !response.value.success || response.value.result.None? {
        return Failure(ServiceFailure(ApiError("Failed to get user details"))), sent;
      }
      r := Success(response.value.result.value);
    }

    /** `verifyCredentials`: a token must verify as active; e-mail and key are verified by
        fetching the user's details. */
    method VerifyCredentials(remote: Remote) returns (r: Outcome<Failure>, sent: seq<SentRequest>)
      ensures credentials.token.Some? ==> SentOnce(sent, TokenVerify)
      ensures credentials.token.Some? ==>
        (r.Pass? <==> remote.tokenVerify.Success? && remote.tokenVerify.value.success
                      && remote.tokenVerify.value.result.status == Some("active"))
      ensures credentials.token.Some? && remote.tokenVerify.Failure? ==> r == Fail(remote.tokenVerify.error)
      ensures credentials.token.Some? && remote.tokenVerify.Success? && r.Fail? ==>
        r.error == ServiceFailure(InvalidCredentials)
      ensures credentials.token.None? && !credentials.CanAuthenticate() ==>
        r == Fail(ServiceFailure(InvalidCredentials)) && sent == []
      ensures credentials.token.None? && credentials.CanAuthenticate() ==> SentOnce(sent, User)
      ensures credentials.token.None? && credentials.CanAuthenticate() ==>
        (r.Pass? <==> remote.user.Success? && remote.user.value.success && remote.user.value.result.Some?)
      ensures credentials.token.None? && credentials.CanAuthenticate() && r.Fail? ==>
        r.error == UserFetchError(remote.user)
    {
      if credentials.token.Some? {
        var response;
        response, sent := MakeRequest(TokenVerify, remote.tokenVerify);
        if response.Failure? {
          return Fail(response.error), sent;
        }
        if !response.value.success || response.value.result.status != Some("active") {
          return Fail(ServiceFailure(InvalidCredentials)), sent;
        }
        r := Pass;
      } else {
        var details;
        details, sent := GetUserDetails(remote);
        r := if details.Failure? then Fail(details.error) else Pass;
      }
    }
  }
}
