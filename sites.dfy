/**
 * A site and the names s3lify derives from its domain: the buckets, the
 * `www` alias, the S3 website endpoint, and the A-record change batch that
 * points the site's names at an endpoint.
 */
module Sites {
  import opened Base
  import opened Aws

  /** Route 53 zone id of the S3 website endpoints, per region. */
  const S3HostedZoneIds: map<string, string> := map[
    "us-east-1" := "Z3AQBSTGFYJSTF",
    "us-west-1" := "Z2F56UZL2M1ACD",
    "us-west-2" := "Z3BJ6K6RIION7M",
    "ap-south-1" := "Z11RGJOFQNVJUP",
    "ap-northeast-1" := "Z2M4EHUR26P7ZW",
    "ap-northeast-2" := "Z3W03O7B5YMIYP",
    "ap-southeast-1" := "Z3O0J2DXBE1FTB",
    "ap-southeast-2" := "Z1WCIGYICN2BYD",
    "eu-central-1" := "Z21DNDUVLTQW6Q",
    "eu-west-1" := "Z1BKCTXD74EZPE",
    "sa-east-1" := "Z7KQH4QJS55SO",
    "us-gov-west-1" := "Z31GFT0UA1I2HV"
  ]

  /** Route 53 zone id of every CloudFront distribution. */
  const CloudFrontZoneId: string := "Z2FDTNDATAQYW2"

  /**
   * A site: the domain to serve, its registrable domain (what `tldextract`
   * computes; an input here) and the region, which is `None` when the
   * configuration leaves it out.
   */
  datatype Site = Site(domain: string, tldDomain: string, region: Option<string>)
  {
    /** The apex domain itself is deployed, so a `www` alias comes with it. */
    predicate SetWww()
    {
      domain == tldDomain
    }

    function S3Bucket(): string
    {
      domain
    }

    function WwwBucket(): string
    {
      "www." + domain
    }

    function WwwDomain(): string
    {
      "www." + domain
    }

    /** The region as `"%s" % region` renders it: `None` prints as "None". */
    function RegionText(): string
    {
      match region
      case Some(r) => r
      case None => "None"
    }

    /** The bucket's website endpoint, which a distribution's origin must equal. */
    function S3Domain(): string
    {
      domain + ".s3-website-" + RegionText() + ".amazonaws.com"
    }

    /** The regional website endpoint the A records alias when there is no CDN. */
    function S3WebsiteEndpoint(): string
    {
      "s3-website-" + RegionText() + ".amazonaws.com"
    }

    /** The policy resource that makes every object of the bucket public. */
    function PublicResource(): string
    {
      "arn:aws:s3:::" + domain + "/*"
    }

    /** The buckets `s3_create_site` creates: the site's, and the `www` one for an apex domain. */
    function SiteBuckets(): (names: set<string>)
      ensures S3Bucket() in names
      ensures WwwBucket() in names <==> SetWww()
      ensures |names| == if SetWww() then 2 else 1
    {
      assert WwwBucket() != S3Bucket() by {
        assert |WwwBucket()| == |S3Bucket()| + 4;
      }
      {S3Bucket()} + if SetWww() then {WwwBucket()} else {}
    }
  }

  /**
   * The alias zone for the A records: the zone given, or else the S3
   * website zone of the site's region, which is a `KeyError` when the
   * region is missing or not in the table.
   */
  function AliasZone(zoneId: Option<string>, region: Option<string>): (r: Result<string>)
    ensures zoneId.Some? ==> r == Ok(zoneId.value)
    ensures zoneId.None? ==> (r.Ok? <==> region.Some? && region.value in S3HostedZoneIds)
    ensures zoneId.None? && r.Ok? ==> r.value == S3HostedZoneIds[region.value]
  {
    match zoneId
    case Some(z) => Ok(z)
    case None =>
      match region
      case None => Raise(KeyError("None"))
      case Some(name) => if name in S3HostedZoneIds then Ok(S3HostedZoneIds[name]) else Raise(KeyError(name))
  }

  /** The change batch of `_route53_update_a_records`. */
  function ARecordChanges(site: Site, dnsName: string, zoneId: string): (changes: seq<Change>)
    ensures |changes| >= 1 && changes[0].key == RecordKey(site.domain, "A")
    ensures forall i :: 0 <= i < |changes| ==>
      changes[i].key.rtype == "A" && changes[i].value == AliasTarget(zoneId, dnsName)
  {
    var target := AliasTarget(zoneId, dnsName);
    [Upsert(RecordKey(site.domain, "A"), target)]
      + if site.SetWww() then [Upsert(RecordKey(site.WwwDomain(), "A"), target)] else []
  }

  /**
   * The batch names the site's domain, and names the `www` domain exactly
   * when the apex is deployed; no name appears twice.
   */
  lemma ARecordNames(site: Site, dnsName: string, zoneId: string)
    ensures var changes := ARecordChanges(site, dnsName, zoneId);
      && (set i | 0 <= i < |changes| :: changes[i].key.name) == {site.domain} + (if site.SetWww() then {site.WwwDomain()} else {})
      && (forall i, j :: 0 <= i < j < |changes| ==> changes[i].key != changes[j].key)
  {
    var changes := ARecordChanges(site, dnsName, zoneId);
    assert |site.WwwDomain()| == |site.domain| + 4;
    if site.SetWww() {
      assert changes[1].key.name == site.WwwDomain();
    }
  }

  /** After the batch, the site's records alias `dnsName`; the `www` one only for an apex domain. */
  lemma ARecordsApplied(site: Site, dnsName: string, zoneId: string, records: map<RecordKey, RecordValue>)
    ensures var r := ApplyChanges(records, ARecordChanges(site, dnsName, zoneId));
      && RecordKey(site.domain, "A") in r && r[RecordKey(site.domain, "A")] == AliasTarget(zoneId, dnsName)
      && (site.SetWww() ==>
            RecordKey(site.WwwDomain(), "A") in r && r[RecordKey(site.WwwDomain(), "A")] == AliasTarget(zoneId, dnsName))
      && (!site.SetWww() ==> forall k :: k != RecordKey(site.domain, "A") && k in records ==> k in r && r[k] == records[k])
  {
    var changes := ARecordChanges(site, dnsName, zoneId);
    ARecordNames(site, dnsName, zoneId);
    assert changes[0].key == RecordKey(site.domain, "A");
    ApplyChangesLastWins(records, changes, 0);
    if site.SetWww() {
      assert changes[1].key == RecordKey(site.WwwDomain(), "A");
      ApplyChangesLastWins(records, changes, 1);
    } else {
      forall k | k != RecordKey(site.domain, "A") && k in records
        ensures k in ApplyChanges(records, changes) && ApplyChanges(records, changes)[k] == records[k]
      {
        ApplyChangesKeeps(records, changes, k);
      }
    }
  }
}
