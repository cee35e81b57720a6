/**
 * Natural-key lookups over the provider's listings. s3lify keeps no handle
 * of its own: every accessor scans the provider's list in order and takes
 * the first entry whose natural key matches.
 */
module Resolver {
  import opened Base
  import opened Text
  import opened Search
  import opened Aws

  /** A zone belongs to the registrable domain when its name, trailing dots stripped, equals it. */
  predicate ZoneNamed(z: HostedZone, tld: string)
  {
    RStrip(z.name, '.') == tld
  }

  /** `_route53_get_hosted_zone`: the first zone named after `tld`. */
  function FindZone(zones: seq<HostedZone>, tld: string): (r: Option<HostedZone>)
    ensures r.None? <==> forall i :: 0 <= i < |zones| ==> !ZoneNamed(zones[i], tld)
    ensures r.Some? ==>
      exists i :: 0 <= i < |zones| && zones[i] == r.value && ZoneNamed(zones[i], tld)
        && forall j :: 0 <= j < i ==> !ZoneNamed(zones[j], tld)
  {
    match FirstIndex(zones, (z: HostedZone) => ZoneNamed(z, tld))
    case None => None
    case Some(i) => Some(zones[i])
  }

  /**
   * A zone created for `tld` (Route 53 stores the name with a trailing dot)
   * is found by the next lookup, unless `tld` itself ends with a dot: then
   * no lookup ever matches it.
   */
  lemma {:induction false} CreatedZoneFound(zones: seq<HostedZone>, tld: string, zone: HostedZone)
    requires FindZone(zones, tld).None?
    requires zone.name == tld + "."
    ensures !EndsWith(tld, '.') ==> FindZone(zones + [zone], tld) == Some(zone)
    ensures EndsWith(tld, '.') ==> FindZone(zones + [zone], tld).None?
  {
    var p := (z: HostedZone) => ZoneNamed(z, tld);
    FirstIndexAppend(zones, [zone], p);
    RStripAppended(tld, '.');
    assert tld + "." == tld + ['.'];
  }

  /** A zone that is found stays the one found when zones are added after it. */
  lemma ZoneFoundStable(zones: seq<HostedZone>, more: seq<HostedZone>, tld: string)
    requires FindZone(zones, tld).Some?
    ensures FindZone(zones + more, tld) == FindZone(zones, tld)
  {
    FirstIndexAppend(zones, more, (z: HostedZone) => ZoneNamed(z, tld));
  }

  /** `_acm_get_certificate_arn`: the first certificate whose domain is exactly `domain`. */
  function FindCertificate(certs: seq<Certificate>, domain: string): (r: Option<Certificate>)
    ensures r.None? <==> forall i :: 0 <= i < |certs| ==> certs[i].domain != domain
    ensures r.Some? ==>
      exists i :: 0 <= i < |certs| && certs[i] == r.value && r.value.domain == domain
        && forall j :: 0 <= j < i ==> certs[j].domain != domain
  {
    match FirstIndex(certs, (c: Certificate) => c.domain == domain)
    case None => None
    case Some(i) => Some(certs[i])
  }

  lemma {:induction false} CreatedCertificateFound(certs: seq<Certificate>, cert: Certificate)
    requires FindCertificate(certs, cert.domain).None?
    ensures FindCertificate(certs + [cert], cert.domain) == Some(cert)
  {
    FirstIndexAppend(certs, [cert], (c: Certificate) => c.domain == cert.domain);
  }

  /** A distribution serves the site when one of its origins is the site's website endpoint. */
  predicate Serves(d: Distribution, s3Domain: string)
  {
    s3Domain in d.config.origins
  }

  /** `cloudfront_get_distribution_id`'s scan: the first distribution with the site as an origin. */
  function FindDistribution(dists: seq<Distribution>, s3Domain: string): (r: Option<Distribution>)
    ensures r.None? <==> forall i :: 0 <= i < |dists| ==> !Serves(dists[i], s3Domain)
    ensures r.Some? ==>
      exists i :: 0 <= i < |dists| && dists[i] == r.value && Serves(r.value, s3Domain)
        && forall j :: 0 <= j < i ==> !Serves(dists[j], s3Domain)
  {
    match FirstIndex(dists, (d: Distribution) => Serves(d, s3Domain))
    case None => None
    case Some(i) => Some(dists[i])
  }

  lemma {:induction false} CreatedDistributionFound(dists: seq<Distribution>, s3Domain: string, dist: Distribution)
    requires FindDistribution(dists, s3Domain).None?
    requires Serves(dist, s3Domain)
    ensures FindDistribution(dists + [dist], s3Domain) == Some(dist)
  {
    FirstIndexAppend(dists, [dist], (d: Distribution) => Serves(d, s3Domain));
  }

  // ---- Certificate validation

  /** A validation entry waiting for a DNS record. */
  predicate PendingDns(v: DomainValidation)
  {
    v.status == "PENDING_VALIDATION" && v.validationMethod == "DNS"
  }

  /** An entry that ends the scan: pending DNS validation, or already issued. */
  predicate Decisive(v: DomainValidation)
  {
    PendingDns(v) || v.status == "ISSUED"
  }

  /** What the scan tells the caller to do. */
  datatype CnameConfig =
    | PendingCname(name: string, value: string)   // `(True, name, value)`: publish this record
    | AlreadyIssued                                // `(True, None, None)`: nothing to publish

  /**
   * The scan of `_acm_get_certificate_cname_config` over a certificate's
   * validation entries, in order: the first decisive entry decides. A
   * pending DNS entry gives its record (a `KeyError` if the record is not
   * there yet), an issued one says so, and no decisive entry gives `None`.
   */
  function ScanValidations(vs: seq<DomainValidation>): (r: Result<Option<CnameConfig>>)
    ensures FirstIndex(vs, Decisive).None? <==> r == Ok(None)
    ensures FirstIndex(vs, Decisive).Some? ==>
      var v := vs[FirstIndex(vs, Decisive).value];
      && (PendingDns(v) && v.record.Some? ==> r == Ok(Some(PendingCname(v.record.value.name, v.record.value.value))))
      && (PendingDns(v) && v.record.None? ==> r.Raise?)
      && (!PendingDns(v) ==> r == Ok(Some(AlreadyIssued)))
    decreases |vs|
  {
    if |vs| == 0 then Ok(None)
    else if PendingDns(vs[0]) then
      match vs[0].record
      case None => Raise(KeyError("ResourceRecord"))
      case Some(rr) => Ok(Some(PendingCname(rr.name, rr.value)))
    else if vs[0].status == "ISSUED" then Ok(Some(AlreadyIssued))
    else ScanValidations(vs[1..])
  }

  /** Only an entry that is both pending and DNS-validated yields a record to publish. */
  lemma PendingCnameComesFromPendingDns(vs: seq<DomainValidation>, name: string, value: string)
    requires ScanValidations(vs) == Ok(Some(PendingCname(name, value)))
    ensures exists i :: 0 <= i < |vs| && PendingDns(vs[i]) && vs[i].record == Some(ResourceRecord(name, value))
  {
    var i := FirstIndex(vs, Decisive).value;
    assert PendingDns(vs[i]);
  }

  // ---- Name servers

  /** A list of name servers as a set, trailing dots stripped. */
  function NameServerSet(ns: seq<string>): set<string>
  {
    set n | n in ns :: RStrip(n, '.')
  }

  /** `route53domains_update_dns` updates the registrar only when the two sets share no server. */
  predicate NameServersDisjoint(zoneNs: seq<string>, registrarNs: seq<string>)
  {
    NameServerSet(zoneNs) !! NameServerSet(registrarNs)
  }

  /**
   * Once the registrar holds the zone's own servers, a second sync sees a
   * common server and leaves the registrar alone (when the zone has any).
   */
  lemma SyncSettles(ns: seq<string>)
    requires |ns| > 0
    ensures !NameServersDisjoint(ns, ns)
  {
    assert RStrip(ns[0], '.') in NameServerSet(ns);
  }

  /** Trailing dots do not make two name-server lists differ. */
  lemma TrailingDotsIgnored(ns: seq<string>, registrarNs: seq<string>)
    requires |ns| == |registrarNs| > 0
    requires forall i :: 0 <= i < |ns| ==> registrarNs[i] == ns[i] + "."
    ensures !NameServersDisjoint(ns, registrarNs)
  {
    assert ns[0] + "." == ns[0] + ['.'];
    assert RStrip(ns[0] + ['.'], '.') == RStrip(ns[0], '.');
    assert RStrip(ns[0], '.') in NameServerSet(ns);
    assert RStrip(registrarNs[0], '.') in NameServerSet(registrarNs);
  }
}
