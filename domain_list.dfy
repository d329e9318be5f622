/** The domain list of one provider
    (dotDNS/Features/Domains/ViewModels/DomainListViewModel.swift). */
module DomainList {
  import opened Wrappers
  import opened CloudflareModels
  import opened Providers
  import opened Dns
  import opened CloudflareDomains
  import opened Cloudflare
  import opened Failures

  /** The Domain a zone becomes: its name, the provider, active exactly when the vendor
      says "active" (every other status, however spelled, is inactive), and no records
      counted yet. */
  function ToDomain(zone: CloudflareDomain, provider: Provider): (d: Domain)
    ensures d.name == zone.name && d.provider == provider && d.recordCount == 0
    ensures (d.status == Active <==> zone.status == "active") && d.status != Transferring
  {
    Domain(zone.name, provider, if zone.status == "active" then Active else Inactive, 0)
  }

  function ZonesToDomains(zones: seq<CloudflareDomain>, provider: Provider): (ds: seq<Domain>)
    ensures |ds| == |zones|
    ensures forall i :: 0 <= i < |zones| ==>
      ds[i].name == zones[i].name && ds[i].provider == provider && ds[i].recordCount == 0
    ensures forall i :: 0 <= i < |zones| ==>
      (ds[i].status == Active <==> zones[i].status == "active") && ds[i].status != Transferring
  {
    seq(|zones|, i requires 0 <= i < |zones| => ToDomain(zones[i], provider))
  }

  class DomainListViewModel {
    var domains: seq<Domain>
    var isLoading: bool
    var errorMessage: Option<string>
    const provider: Provider
    /** Present exactly when the provider carries Cloudflare credentials. */
    const service: CloudflareService?

    constructor (provider: Provider)
      ensures this.provider == provider && domains == [] && !isLoading && errorMessage == None
      ensures service == null <==> provider.credentials.None?
      ensures service != null ==> service.credentials == provider.credentials.value.cloudflare
    {
      this.provider := provider;
      match provider.credentials {
        case Some(CloudflareKind(credentials)) =>
          service := new CloudflareService(credentials);
        case None =>
          service := null;
      }
      domains := [];
      isLoading := false;
      errorMessage := None;
    }

    /** `loadDomains`: without a service only the error message changes; otherwise the zones
        replace the list on success, and on failure the list stays and the error's
        description is shown. `isLoading` is false again on exit. */
    method LoadDomains(remote: Remote) returns (sent: seq<SentRequest>)
      modifies this
      ensures service == null ==>
        errorMessage == Some("Invalid provider configuration")
        && domains == old(domains) && isLoading == old(isLoading) && sent == []
      ensures service != null ==> !isLoading
      ensures (service != null && service.credentials.CanAuthenticate() && remote.zones.Success?
        && remote.zones.value.success) ==>
        domains == ZonesToDomains(remote.zones.value.result, provider) && errorMessage == old(errorMessage)
      ensures service != null && !service.credentials.CanAuthenticate() ==>
        domains == old(domains) && sent == []
        && errorMessage == Some(LocalizedDescription(ServiceFailure(InvalidCredentials)))
      ensures service != null && service.credentials.CanAuthenticate() && remote.zones.Failure? ==>
        domains == old(domains) && errorMessage == Some(LocalizedDescription(remote.zones.error))
      ensures (service != null && service.credentials.CanAuthenticate() && remote.zones.Success?
        && !remote.zones.value.success) ==>
        domains == old(domains)
        && errorMessage == Some("Cloudflare API Error: " + FirstErrorMessage(remote.zones.value.errors))
    {
      if service == null {
        errorMessage := Some("Invalid provider configuration");
        return [];
      }
      isLoading := true;
      var zones;
      zones, sent := service.GetDomains(remote);
      match zones {
        case Success(cfDomains) =>
          domains := ZonesToDomains(cfDomains, provider);
        case Failure(e) =>
          errorMessage := Some(LocalizedDescription(e));
      }
      isLoading := false;
    }
  }
}
