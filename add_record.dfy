/** The add-record form (dotDNS/Features/Records/ViewModels/AddDNSRecordViewModel.swift). */
module AddRecord {
  import opened Wrappers
  import opened Providers
  import opened Dns
  import opened Failures

  /** The record the form submits: the priority is kept only for MX and SRV records. */
  function BuildRecord(recordType: RecordType, name: string, content: string, ttl: int, priority: int,
                       domain: Domain): (r: DnsRecord)
    ensures r.priority.Some? <==> recordType == MX || recordType == SRV
    ensures r.priority.Some? ==> r.priority.value == priority
    ensures r.recordType == recordType && r.name == name && r.content == content && r.ttl == ttl
    ensures r.provider == domain.provider
  {
    DnsRecord(recordType, name, content, ttl,
      if recordType == MX || recordType == SRV then Some(priority) else None,
      domain.provider)
  }

  class AddDnsRecordViewModel {
    var recordType: RecordType
    var name: string
    var content: string
    var ttl: int
    var priority: int
    var isLoading: bool
    var errorMessage: Option<string>

    constructor ()
      ensures recordType == A && name == "" && content == "" && ttl == 3600 && priority == 0
      ensures !isLoading && errorMessage == None
    {
      recordType := A;
      name := "";
      content := "";
      ttl := 3600;
      priority := 0;
      isLoading := false;
      errorMessage := None;
    }

    /** A name, some content and a TTL of at least a minute. */
    function IsValid(): (valid: bool)
      reads this
      ensures valid ==> |name| > 0 && |content| > 0 && ttl >= 60
      ensures !valid ==> name == "" || content == "" || ttl < 60
    {
      name != "" && content != "" && ttl >= 60
    }

    /** `addRecordToProvider`: no provider type has an implementation yet, so it succeeds
        without doing anything. */
    method AddRecordToProvider(record: DnsRecord, domain: Domain) returns (r: Outcome<Failure>)
      ensures r == Pass
    {
      match domain.provider.providerType {
        case Cloudflare =>
        case NameDotCom =>
        case GoDaddy =>
        case Route53 =>
      }
      r := Pass;
    }

    /** `addRecord`: an invalid form changes nothing; a valid one submits the record built
        from it and, since submission cannot fail, leaves the error message alone. */
    method AddRecord(domain: Domain) returns (submitted: Option<DnsRecord>)
      modifies this
      ensures !old(IsValid()) ==> unchanged(this) && submitted == None
      ensures old(IsValid()) ==>
        submitted == Some(BuildRecord(recordType, name, content, ttl, priority, domain))
      ensures old(IsValid()) ==> !isLoading && errorMessage == old(errorMessage)
      ensures recordType == old(recordType) && name == old(name) && content == old(content)
      ensures ttl == old(ttl) && priority == old(priority)
    {
      if !IsValid() {
        return None;
      }
      isLoading := true;
      var record := BuildRecord(recordType, name, content, ttl, priority, domain);
      var outcome := AddRecordToProvider(record, domain);
      submitted := Some(record);
      isLoading := false;
    }
  }

  /** The TTL floor: with a name and content, 59 seconds is rejected and 60 accepted. */
  lemma TtlFloor(form: AddDnsRecordViewModel)
    requires form.name != "" && form.content != ""
    ensures form.ttl == 59 ==> !form.IsValid()
    ensures form.ttl == 60 ==> form.IsValid()
    ensures form.IsValid() <==> form.ttl >= 60
  {
  }
}
