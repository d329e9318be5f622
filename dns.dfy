/** The value types derived from a provider's zones and records
    (dotDNS/Models/Domain.swift, dotDNS/Models/DNSRecord.swift). The `id` each gets from a
    fresh UUID is left out: nothing in the core reads it. */
module Dns {
  import opened Wrappers
  import opened Providers

  datatype DomainStatus = Active | Inactive | Transferring

  function DomainStatusRawValue(s: DomainStatus): string {
    match s
    case Active => "Active"
    case Inactive => "Inactive"
    case Transferring => "Transferring"
  }

  /** `DomainStatus(rawValue:)`: the synthesized lookup by raw value. */
  function DomainStatusFromRawValue(s: string): (r: Option<DomainStatus>)
    ensures r.Some? ==> DomainStatusRawValue(r.value) == s
  {
    if s == "Active" then Some(Active)
    else if s == "Inactive" then Some(Inactive)
    else if s == "Transferring" then Some(Transferring)
    else None
  }

  /** Every status reads back from its raw value, and no two statuses share one. */
  lemma DomainStatusRawValueRoundTrip(s: DomainStatus)
    ensures DomainStatusFromRawValue(DomainStatusRawValue(s)) == Some(s)
    ensures forall u :: u != s ==> DomainStatusRawValue(u) != DomainStatusRawValue(s)
  {
  }

  datatype RecordType = A | AAAA | CNAME | MX | TXT | SRV

  function RecordTypeRawValue(t: RecordType): string {
    match t
    case A => "A"
    case AAAA => "AAAA"
    case CNAME => "CNAME"
    case MX => "MX"
    case TXT => "TXT"
    case SRV => "SRV"
  }

  /** `RecordType(rawValue:)`: the synthesized lookup by raw value. */
  function RecordTypeFromRawValue(s: string): (r: Option<RecordType>)
    ensures r.Some? ==> RecordTypeRawValue(r.value) == s
  {
    if s == "A" then Some(A)
    else if s == "AAAA" then Some(AAAA)
    else if s == "CNAME" then Some(CNAME)
    else if s == "MX" then Some(MX)
    else if s == "TXT" then Some(TXT)
    else if s == "SRV" then Some(SRV)
    else None
  }

  /** Every record type reads back from its raw value, and no two types share one. */
  lemma RecordTypeRawValueRoundTrip(t: RecordType)
    ensures RecordTypeFromRawValue(RecordTypeRawValue(t)) == Some(t)
    ensures forall u :: u != t ==> RecordTypeRawValue(u) != RecordTypeRawValue(t)
  {
  }

  datatype Domain = Domain(
    name: string,
    provider: Provider,
    status: DomainStatus,
    recordCount: int)

  datatype DnsRecord = DnsRecord(
    recordType: RecordType,
    name: string,
    content: string,
    ttl: int,
    priority: Option<int>,
    provider: Provider)
}
