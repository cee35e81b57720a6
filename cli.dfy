/**
 * The command line: how `main` reads the configuration into a tier and
 * flags, and the order in which `setup` and `deploy` drive the client.
 * Each command returns the trace of client operations it started; the trace
 * is proved to follow a plan that depends only on the configuration and on
 * what the provider held when the command began.
 */
module Cli {
  import opened Base
  import opened Text
  import opened Aws
  import opened Sites
  import opened Manifest
  import opened Client

  /** A configuration entry: missing, present as YAML null, or given. */
  datatype Setting<+T> = Absent | Null | Given(value: T)

  /** The entries of `s3lify.yml` that the commands read. */
  datatype Config = Config(
    domain: string,
    awsRegion: Setting<string>,
    distribution: Setting<string>,
    siteDirectory: Setting<string>,
    purgeFiles: Setting<bool>,
    purgeExcludeFiles: Setting<seq<string>>,
    invalidateCloudfrontObjects: Setting<bool>,
    updateRoute53domainsDns: Setting<bool>)

  /** Where the site is served from: S3 only, S3 behind Route 53 records, or CloudFront. */
  datatype Tier = S3Only | Route53 | CloudFront

  const TierNames: seq<string> := ["s3", "route53", "cloudfront"]

  /**
   * The `distribution` entry as `main` reads it. A missing entry means "s3",
   * a null one becomes "" and then "s3"; anything outside the three names
   * becomes "s3". The membership test comes before lower-casing, so only
   * the exact lower-case names select Route 53 or CloudFront.
   */
  function DistributionTier(d: Setting<string>): (tier: Tier)
    ensures tier == Route53 <==> d == Given("route53")
    ensures tier == CloudFront <==> d == Given("cloudfront")
  {
    var named := match d case Absent => "s3" case Null => "" case Given(s) => s;
    var known := if named in TierNames then named else "s3";
    assert Lower("s3") == "s3" && Lower("route53") == "route53" && Lower("cloudfront") == "cloudfront";
    var lowered := Lower(known);
    if lowered == "route53" then Route53 else if lowered == "cloudfront" then CloudFront else S3Only
  }

  lemma MixedCaseTierIsS3()
    ensures DistributionTier(Given("CloudFront")) == S3Only
  {
    assert Given("CloudFront") != Given("cloudfront") by {
      assert "CloudFront"[0] != "cloudfront"[0];
    }
  }

  /** `update_route53domains_dns`: only an explicit `false` turns the registrar update off. */
  function UpdateDnsFlag(s: Setting<bool>): (sync: bool)
    ensures !sync <==> s == Given(false)
  {
    match s
    case Given(b) => b
    case _ => true
  }

  /** The region handed to the client: `None` unless the entry gives one. */
  function RegionOf(s: Setting<string>): (region: Option<string>)
    ensures region.Some? <==> s.Given?
  {
    match s
    case Given(r) => Some(r)
    case _ => None
  }

  /** `purge_exclude_files` with its default `[]`; an explicit null stays `None`. */
  function ExcludeFiles(s: Setting<seq<string>>): (exclude: Option<seq<string>>)
    ensures exclude.None? <==> s.Null?
    ensures s.Absent? ==> exclude == Some([])
  {
    match s
    case Absent => Some([])
    case Null => None
    case Given(files) => Some(files)
  }

  /** `main`: the client for the configured domain; `tldDomain` is what `tldextract` makes of it. */
  method Connect(config: Config, tldDomain: string, provider: Provider) returns (client: S3lify)
    ensures client.site == Site(config.domain, tldDomain, RegionOf(config.awsRegion))
    ensures client.provider == provider
  {
    client := new S3lify(config.domain, tldDomain, RegionOf(config.awsRegion), provider);
  }

  // ---- setup

  datatype SetupStep =
    | CreateSite
    | UpdateS3ARecords
    | UpdateRegistrarDns
    | GenerateCertificate
    | PublishValidationCname
    | CreateDistribution
    | UpdateCloudfrontARecords

  /** The position of each step in `setup`'s code. */
  function StepRank(s: SetupStep): nat
  {
    match s
    case CreateSite => 0
    case UpdateS3ARecords => 1
    case UpdateRegistrarDns => 2
    case GenerateCertificate => 3
    case PublishValidationCname => 4
    case CreateDistribution => 5
    case UpdateCloudfrontARecords => 6
  }

  /** A status Python treats as true: present and not empty. */
  predicate Truthy(status: Option<string>)
  {
    status.Some? && status.value != ""
  }

  /** The one-step list `[s]` when `c` holds, nothing otherwise. */
  function When(c: bool, s: SetupStep): (steps: seq<SetupStep>)
    ensures |steps| <= 1
    ensures forall x :: x in steps <==> c && x == s
  {
    if c then [s] else []
  }

  /** The certificate steps: request one unless one has a status, publish its record unless it is issued. */
  function ValidationPlan(certStatus: Option<string>): seq<SetupStep>
  {
    When(!Truthy(certStatus), GenerateCertificate) + When(certStatus != Some("ISSUED"), PublishValidationCname)
  }

  /** The distribution steps: create one unless one serves the site, then alias the A records to it. */
  function DistributionPlan(distributionFound: bool): seq<SetupStep>
  {
    When(!distributionFound, CreateDistribution) + [UpdateCloudfrontARecords]
  }

  /**
   * The CloudFront steps: a certificate unless one has a status, its
   * validation record unless it is issued, a distribution unless one
   * serves the site, then the A records.
   */
  function CertificatePlan(certStatus: Option<string>, distributionFound: bool): (plan: seq<SetupStep>)
    ensures GenerateCertificate in plan <==> !Truthy(certStatus)
    ensures PublishValidationCname in plan <==> certStatus != Some("ISSUED")
    ensures CreateDistribution in plan <==> !distributionFound
    ensures UpdateCloudfrontARecords in plan
    ensures forall x :: x in plan ==> StepRank(x) >= 3
  {
    ValidationPlan(certStatus) + DistributionPlan(distributionFound)
  }

  /** The Route 53 steps: the A records, then the registrar's name servers when the flag is on. */
  function DnsPlan(syncDns: bool): seq<SetupStep>
  {
    [UpdateS3ARecords] + When(syncDns, UpdateRegistrarDns)
  }

  /** The steps after the bucket: the Route 53 ones, then the CloudFront ones. */
  function RoutingPlan(tier: Tier, syncDns: bool, certStatus: Option<string>, distributionFound: bool): seq<SetupStep>
  {
    if tier == S3Only then []
    else DnsPlan(syncDns) + (if tier == CloudFront then CertificatePlan(certStatus, distributionFound) else [])
  }

  /** Which routing steps are planned, and that none of them comes before the Route 53 ones. */
  lemma RoutingPlanSteps(tier: Tier, syncDns: bool, certStatus: Option<string>, distributionFound: bool)
    ensures var plan := RoutingPlan(tier, syncDns, certStatus, distributionFound);
      && (tier == S3Only ==> plan == [])
      && (UpdateS3ARecords in plan <==> tier != S3Only)
      && (UpdateRegistrarDns in plan <==> tier != S3Only && syncDns)
      && (GenerateCertificate in plan <==> tier == CloudFront && !Truthy(certStatus))
      && (PublishValidationCname in plan <==> tier == CloudFront && certStatus != Some("ISSUED"))
      && (CreateDistribution in plan <==> tier == CloudFront && !distributionFound)
      && (UpdateCloudfrontARecords in plan <==> tier == CloudFront)
      && (forall x :: x in plan ==> StepRank(x) >= 1)
  {
    var dns := DnsPlan(syncDns);
    if tier == CloudFront {
      var cert := CertificatePlan(certStatus, distributionFound);
      assert forall x :: x in dns + cert <==> x in dns || x in cert;
    } else if tier == Route53 {
      assert dns + [] == dns;
    }
  }

  /**
   * The steps `setup` takes, from what held when it started: whether the
   * site existed, the registrar flag, the certificate status and whether a
   * distribution served the site. Each step is taken exactly when its
   * condition holds.
   */
  function SetupPlan(tier: Tier, siteExists: bool, syncDns: bool, certStatus: Option<string>, distributionFound: bool): seq<SetupStep>
  {
    When(!siteExists, CreateSite) + RoutingPlan(tier, syncDns, certStatus, distributionFound)
  }

  /** Each step is planned exactly when its condition holds. */
  lemma {:induction false} SetupPlanSteps(tier: Tier, siteExists: bool, syncDns: bool, certStatus: Option<string>, distributionFound: bool)
    ensures var plan := SetupPlan(tier, siteExists, syncDns, certStatus, distributionFound);
      && (CreateSite in plan <==> !siteExists)
      && (UpdateS3ARecords in plan <==> tier != S3Only)
      && (UpdateRegistrarDns in plan <==> tier != S3Only && syncDns)
      && (GenerateCertificate in plan <==> tier == CloudFront && !Truthy(certStatus))
      && (PublishValidationCname in plan <==> tier == CloudFront && certStatus != Some("ISSUED"))
      && (CreateDistribution in plan <==> tier == CloudFront && !distributionFound)
      && (UpdateCloudfrontARecords in plan <==> tier == CloudFront)
  {
    RoutingPlanSteps(tier, syncDns, certStatus, distributionFound);
  }

  /** Strictly increasing ranks: no step twice, and in the code's order. */
  predicate Ordered(steps: seq<SetupStep>)
  {
    forall i, j :: 0 <= i < j < |steps| ==> StepRank(steps[i]) < StepRank(steps[j])
  }

  /** Joining two ordered runs, the first ranked below `k` and the second from `k` on. */
  lemma OrderedAppend(a: seq<SetupStep>, b: seq<SetupStep>, k: nat)
    requires Ordered(a) && Ordered(b)
    requires forall x :: x in a ==> StepRank(x) < k
    requires forall y :: y in b ==> StepRank(y) >= k
    ensures Ordered(a + b)
  {
    forall i, j | 0 <= i < j < |a + b|
      ensures StepRank((a + b)[i]) < StepRank((a + b)[j])
    {
      if j < |a| {
        assert (a + b)[i] == a[i] && (a + b)[j] == a[j];
      } else if i < |a| {
        assert (a + b)[i] == a[i] && (a + b)[j] == b[j - |a|];
        assert a[i] in a && b[j - |a|] in b;
      } else {
        assert (a + b)[i] == b[i - |a|] && (a + b)[j] == b[j - |a|];
      }
    }
  }

  lemma {:induction false} CertificatePlanOrdered(certStatus: Option<string>, distributionFound: bool)
    ensures Ordered(CertificatePlan(certStatus, distributionFound))
  {
    var gen := When(!Truthy(certStatus), GenerateCertificate);
    var publish := When(certStatus != Some("ISSUED"), PublishValidationCname);
    var create := When(!distributionFound, CreateDistribution);
    OrderedAppend(gen, publish, 4);
    OrderedAppend(create, [UpdateCloudfrontARecords], 6);
    OrderedAppend(gen + publish, create + [UpdateCloudfrontARecords], 5);
  }

  /** Steps never repeat and always come in the code's order. */
  lemma {:induction false} SetupPlanOrdered(tier: Tier, siteExists: bool, syncDns: bool, certStatus: Option<string>, distributionFound: bool)
    ensures Ordered(SetupPlan(tier, siteExists, syncDns, certStatus, distributionFound))
  {
    OrderedAppend([UpdateS3ARecords], When(syncDns, UpdateRegistrarDns), 2);
    var cert := if tier == CloudFront then CertificatePlan(certStatus, distributionFound) else [];
    CertificatePlanOrdered(certStatus, distributionFound);
    OrderedAppend(DnsPlan(syncDns), cert, 3);
    RoutingPlanSteps(tier, syncDns, certStatus, distributionFound);
    OrderedAppend(When(!siteExists, CreateSite), RoutingPlan(tier, syncDns, certStatus, distributionFound), 1);
  }

  /** On a site that is fully set up, `setup` creates nothing: it only rewrites records. */
  lemma SecondSetupCreatesNothing(tier: Tier, syncDns: bool, certStatus: Option<string>)
    requires Truthy(certStatus)
    ensures var plan := SetupPlan(tier, true, syncDns, certStatus, true);
      CreateSite !in plan && GenerateCertificate !in plan && CreateDistribution !in plan
  {
    SetupPlanSteps(tier, true, syncDns, certStatus, true);
  }

  lemma PrefixAppend<T>(a: seq<T>, b: seq<T>, c: seq<T>)
    requires b <= c
    ensures a + b <= a + c
  {
    assert (a + c)[..|a + b|] == a + b;
  }

  /** The alias target of the site's A records in the S3 tier: the regional website endpoint. */
  function S3Alias(site: Site): RecordValue
    requires site.region.Some? && site.region.value in S3HostedZoneIds
  {
    AliasTarget(S3HostedZoneIds[site.region.value], site.S3WebsiteEndpoint())
  }

  /** The alias target of the site's A records in the CloudFront tier: the distribution's domain. */
  function CloudfrontAlias(dist: Distribution): RecordValue
  {
    AliasTarget(CloudFrontZoneId, dist.domainName)
  }

  /**
   * What `setup` leaves in Route 53 for the tier: the zone the site finds
   * aliases the site's A records to the S3 website endpoint (Route 53 tier)
   * or to the site's distribution (CloudFront tier). A registrable domain
   * ending with a dot is exempt: no lookup ever finds its zone.
   */
  predicate Routed(client: S3lify, tier: Tier)
    reads client.provider`zones, client.provider`distributions
  {
    EndsWith(client.site.tldDomain, '.') ||
    match tier
    case S3Only => true
    case Route53 =>
      && client.site.region.Some? && client.site.region.value in S3HostedZoneIds
      && SiteAliased(client.provider.zones, client.site, S3Alias(client.site))
    case CloudFront =>
      && client.CloudfrontGetDistribution().Some?
      && SiteAliased(client.provider.zones, client.site, CloudfrontAlias(client.CloudfrontGetDistribution().value))
  }

  /** The bucket `s3_create_site` leaves under the site's name. */
  function WebsiteBucket(site: Site): Bucket
  {
    Bucket(Some(PublicRead(site.PublicResource())), Some(IndexDocument("index.html", "error.html")), [])
  }

  /**
   * `setup`. `trace` lists the client operations started, the failing one
   * included; the command stops at the first exception. Whatever happens,
   * the trace follows the plan computed from the starting state, and all of
   * it is carried out when the command succeeds. On success the site
   * exists (configured as a public website when setup created it), for the
   * CloudFront tier a certificate and a distribution exist too, and the
   * site is `Routed`. The S3-only tier touches nothing but buckets.
   */
  method Setup(client: S3lify, tier: Tier, syncDns: bool) returns (r: Result<()>, trace: seq<SetupStep>)
    requires client.provider.Valid()
    modifies client.provider`buckets, client.provider`zones, client.provider`nextId, client.provider`registrar,
      client.provider`certificates, client.provider`distributions
    ensures client.provider.Valid()
    ensures old(client.SiteExists()).Raise? ==> r.Raise? && trace == []
    ensures old(client.SiteExists()).Ok? ==>
      trace <= SetupPlan(tier, old(client.SiteExists()).value, syncDns,
                         old(client.AcmGetCertificateStatus()), old(client.CloudfrontGetDistributionId()).Some?)
    ensures r.Ok? ==>
      trace == SetupPlan(tier, old(client.SiteExists()).value, syncDns,
                         old(client.AcmGetCertificateStatus()), old(client.CloudfrontGetDistributionId()).Some?)
    ensures r.Ok? ==> client.SiteExists() == Ok(true)
    ensures r.Ok? && tier == CloudFront ==>
      client.AcmGetCertificateArn().Some? && client.CloudfrontGetDistributionId().Some?
    ensures r.Ok? && old(client.SiteExists()) == Ok(false) ==>
      client.site.S3Bucket() in client.provider.buckets && client.provider.buckets[client.site.S3Bucket()] == WebsiteBucket(client.site)
    ensures r.Ok? && tier != S3Only ==> client.site.region.Some? && client.site.region.value in S3HostedZoneIds
    ensures r.Ok? ==> Routed(client, tier)
    ensures tier == S3Only ==>
      && client.provider.zones == old(client.provider.zones)
      && client.provider.registrar == old(client.provider.registrar)
      && client.provider.certificates == old(client.provider.certificates)
      && client.provider.distributions == old(client.provider.distributions)
  {
    ghost var certStatus := client.AcmGetCertificateStatus();
    ghost var distributionFound := client.CloudfrontGetDistributionId().Some?;
    r, trace := SetupSite(client);
    if r.Raise? {
      return;
    }
    var rest;
    r, rest := SetupRouting(client, tier, syncDns);
    PrefixAppend(trace, rest, RoutingPlan(tier, syncDns, certStatus, distributionFound));
    trace := trace + rest;
  }

  /**
   * The S3 part of `setup`: create the site unless it exists. Only a site
   * reported missing has its buckets touched; when that succeeds, its bucket
   * is a public website and the www bucket, if any, redirects to it.
   */
  method SetupSite(client: S3lify) returns (r: Result<()>, steps: seq<SetupStep>)
    modifies client.provider`buckets
    ensures old(client.SiteExists()).Raise? ==> r.Raise? && steps == []
    ensures old(client.SiteExists()).Ok? ==> steps == When(!old(client.SiteExists()).value, CreateSite)
    ensures r.Ok? ==> client.SiteExists() == Ok(true)
    ensures r.Ok? ==>
      && Api.HeadBucket !in client.provider.faults && client.site.domain !in client.provider.denied
      && client.site.domain in client.provider.buckets && client.provider.buckets[client.site.domain].website.Some?
    ensures old(client.SiteExists()) != Ok(false) ==> client.provider.buckets == old(client.provider.buckets)
    ensures client.AcmGetCertificateStatus() == old(client.AcmGetCertificateStatus())
    ensures client.CloudfrontGetDistributionId() == old(client.CloudfrontGetDistributionId())
    ensures r.Ok? && old(client.SiteExists()) == Ok(false) ==>
      && client.site.S3Bucket() in client.provider.buckets
      && client.provider.buckets[client.site.S3Bucket()] == WebsiteBucket(client.site)
      && (client.site.SetWww() ==>
            client.site.WwwBucket() in client.provider.buckets
            && client.provider.buckets[client.site.WwwBucket()].website == Some(RedirectAll(client.site.domain, "https")))
  {
    steps := [];
    var siteExists := client.SiteExists();
    if siteExists.Raise? {
      return Raise(siteExists.exc), steps;
    }
    if !siteExists.value {
      steps := [CreateSite];
      var created := client.S3CreateSite("index.html", "error.html");
      if created.Raise? {
        return Raise(created.exc), steps;
      }
    }
    return Ok(()), steps;
  }

  /** The Route 53 and CloudFront part of `setup`, on a site whose bucket is in place. */
  method SetupRouting(client: S3lify, tier: Tier, syncDns: bool) returns (r: Result<()>, steps: seq<SetupStep>)
    requires client.provider.Valid()
    modifies client.provider`zones, client.provider`nextId, client.provider`registrar,
      client.provider`certificates, client.provider`distributions
    ensures client.provider.Valid()
    ensures steps <= RoutingPlan(tier, syncDns, old(client.AcmGetCertificateStatus()), old(client.CloudfrontGetDistributionId()).Some?)
    ensures r.Ok? ==> steps == RoutingPlan(tier, syncDns, old(client.AcmGetCertificateStatus()), old(client.CloudfrontGetDistributionId()).Some?)
    ensures r.Ok? && tier == CloudFront ==>
      client.AcmGetCertificateArn().Some? && client.CloudfrontGetDistributionId().Some?
    ensures tier == S3Only ==> r.Ok? && unchanged(client.provider)
    ensures r.Ok? && tier != S3Only ==> client.site.region.Some? && client.site.region.value in S3HostedZoneIds
    ensures r.Ok? ==> Routed(client, tier)
  {
    steps := [];
    if tier == S3Only {
      return Ok(()), steps;
    }
    ghost var certStatus := client.AcmGetCertificateStatus();
    ghost var distributionFound := client.CloudfrontGetDistributionId().Some?;
    ghost var cert := if tier == CloudFront then CertificatePlan(certStatus, distributionFound) else [];
    r, steps := SetupDns(client, syncDns);
    if r.Raise? {
      PrefixAppend(steps, [], cert);
      return;
    }
    if tier == CloudFront {
      var more;
      r, more := SetupCloudfront(client);
      PrefixAppend(steps, more, cert);
      steps := steps + more;
    }
  }

  /**
   * Point the A records at the S3 endpoint, then sync the registrar when
   * the flag is on. The sync sees the zone servers as they are afterwards:
   * it changes no zone.
   */
  method SetupDns(client: S3lify, syncDns: bool) returns (r: Result<()>, steps: seq<SetupStep>)
    requires client.provider.Valid()
    modifies client.provider`zones, client.provider`nextId, client.provider`registrar
    ensures client.provider.Valid()
    ensures steps <= DnsPlan(syncDns)
    ensures r.Ok? ==> steps == DnsPlan(syncDns)
    ensures r.Ok? ==> client.site.region.Some? && client.site.region.value in S3HostedZoneIds
    ensures r.Ok? ==> (client.provider.zones ==
      UpdateRecords(old(client.ZonesWithEnsured()), old(client.EnsuredZone()).id,
        ARecordChanges(client.site, client.site.S3WebsiteEndpoint(), S3HostedZoneIds[client.site.region.value])))
    ensures r.Ok? && !EndsWith(client.site.tldDomain, '.') ==> SiteAliased(client.provider.zones, client.site, S3Alias(client.site))
    ensures !syncDns || r.Raise? ==> client.provider.registrar == old(client.provider.registrar)
    ensures syncDns && r.Ok? ==>
      client.provider.registrar ==
        SyncedRegistrar(old(client.provider.registrar), client.provider.faults, client.site.tldDomain, client.Route53GetNsValues())
  {
    steps := [UpdateS3ARecords];
    var records := client.S3UpdateRoute53ARecords();
    if records.Raise? {
      return Raise(records.exc), steps;
    }
    if syncDns {
      steps := steps + [UpdateRegistrarDns];
      var synced := client.Route53domainsUpdateDns();
      if synced.Raise? {
        return Raise(synced.exc), steps;
      }
    }
    return Ok(()), steps;
  }

  /**
   * The CloudFront part of `setup`: ensure a certificate and publish its
   * validation record, then ensure a distribution and alias the A records
   * to it. Nothing waits for the certificate to be issued before the
   * distribution is created.
   */
  method SetupCloudfront(client: S3lify) returns (r: Result<()>, steps: seq<SetupStep>)
    requires client.provider.Valid()
    modifies client.provider`zones, client.provider`nextId, client.provider`certificates, client.provider`distributions
    ensures client.provider.Valid()
    ensures steps <= CertificatePlan(old(client.AcmGetCertificateStatus()), old(client.CloudfrontGetDistributionId()).Some?)
    ensures r.Ok? ==> steps == CertificatePlan(old(client.AcmGetCertificateStatus()), old(client.CloudfrontGetDistributionId()).Some?)
    ensures r.Ok? ==> client.AcmGetCertificateArn().Some? && client.CloudfrontGetDistributionId().Some?
    ensures r.Ok? && !EndsWith(client.site.tldDomain, '.') ==>
      SiteAliased(client.provider.zones, client.site, CloudfrontAlias(client.CloudfrontGetDistribution().value))
  {
    ghost var distributionFound := client.CloudfrontGetDistributionId().Some?;
    r, steps := SetupCertificate(client);
    if r.Raise? {
      PrefixAppend(steps, [], DistributionPlan(distributionFound));
      return;
    }
    var more := SetupDistribution(client);
    steps := steps + more;
  }

  /**
   * Ensure the certificate, then publish its validation record unless it
   * is already issued: the zone the site finds then holds the CNAME the
   * validation scan gives, whenever the scan gives both its parts.
   */
  method SetupCertificate(client: S3lify) returns (r: Result<()>, steps: seq<SetupStep>)
    requires client.provider.Valid()
    modifies client.provider`zones, client.provider`nextId, client.provider`certificates
    ensures client.provider.Valid()
    ensures steps <= ValidationPlan(old(client.AcmGetCertificateStatus()))
    ensures r.Ok? ==> steps == ValidationPlan(old(client.AcmGetCertificateStatus()))
    ensures r.Ok? ==> client.AcmGetCertificateArn().Some?
    ensures old(client.AcmGetCertificateStatus()) == Some("ISSUED") ==> client.provider.zones == old(client.provider.zones)
    ensures (r.Ok? && old(client.AcmGetCertificateStatus()) != Some("ISSUED")
             && S3lify.Publishable(client.AcmGetCertificateCnameConfig()) && !EndsWith(client.site.tldDomain, '.')) ==>
      HasRecord(client.provider.zones, client.site.tldDomain,
                RecordKey(client.AcmGetCertificateCnameConfig().value.value.name, "CNAME"),
                Cname(30, client.AcmGetCertificateCnameConfig().value.value.value))
  {
    steps := [];
    var certStatus := client.AcmGetCertificateStatus();
    ghost var firstStatus := certStatus;
    client.CertificateHasStatus();
    if !Truthy(certStatus) {
      steps := [GenerateCertificate];
      var _ := client.AcmGenerateCertificate();
      certStatus := client.AcmGetCertificateStatus();
    }
    assert certStatus == Some("ISSUED") <==> firstStatus == Some("ISSUED");
    if certStatus != Some("ISSUED") {
      steps := steps + [PublishValidationCname];
      var published := client.AcmUpdateRoute53CnameRecords();
      if published.Raise? {
        return Raise(published.exc), steps;
      }
    }
    return Ok(()), steps;
  }

  /** Ensure the distribution (a certificate exists by now), then alias the A records to it. */
  method SetupDistribution(client: S3lify) returns (steps: seq<SetupStep>)
    requires client.provider.Valid()
    requires client.AcmGetCertificateArn().Some?
    modifies client.provider`zones, client.provider`nextId, client.provider`distributions
    ensures client.provider.Valid()
    ensures steps == DistributionPlan(old(client.CloudfrontGetDistributionId()).Some?)
    ensures client.CloudfrontGetDistributionId().Some?
    ensures old(client.CloudfrontGetDistributionId()).Some? ==> client.provider.distributions == old(client.provider.distributions)
    ensures !EndsWith(client.site.tldDomain, '.') ==>
      SiteAliased(client.provider.zones, client.site, CloudfrontAlias(client.CloudfrontGetDistribution().value))
  {
    steps := [];
    var id := client.CloudfrontGetDistributionId();
    if id.None? {
      steps := [CreateDistribution];
      var _ := client.CloudfrontCreateDistribution();
    }
    steps := steps + [UpdateCloudfrontARecords];
    client.CloudfrontUpdateRoute53ARecords();
  }

  // ---- deploy

  datatype DeployStep = CreateManifest | PurgeFiles | InvalidateObjects | Upload

  /**
   * The buckets after `deploy` has rebuilt the manifest of bucket `name` and,
   * when asked, purged the keys the rebuilt manifest lists.
   */
  function PreparedBuckets(buckets: map<string, Bucket>, name: string, faults: set<Api>, purge: bool,
                           exclude: Option<seq<string>>): map<string, Bucket>
    requires name in buckets
  {
    var rebuilt := ManifestRebuilt(buckets, name, KeysOf(buckets[name].objects));
    if purge then PurgedBuckets(rebuilt, name, StoredManifest(rebuilt, faults, name), exclude, faults) else rebuilt
  }

  /** The buckets after `s3_upload` has written the manifest of `files` (nothing for no files). */
  function WithManifest(buckets: map<string, Bucket>, name: string, files: seq<string>): map<string, Bucket>
    requires name in buckets
  {
    if |files| == 0 then buckets else WithObject(buckets, name, ManifestFile, Encode(files))
  }

  /** The invalidations `deploy` requests: one for every path of the distribution, when asked and there is one. */
  function InvalidationsFor(invalidate: bool, distributionId: Option<nat>): seq<Invalidation>
  {
    if invalidate && distributionId.Some? then [Invalidation(distributionId.value, ["/*"])] else []
  }

  /**
   * The purge of `deploy` runs on the manifest it has just rebuilt, which
   * names the last listed key other than the manifest: it removes at most
   * that one object, whatever the bucket held before.
   */
  lemma DeployPurgesAtMostLastKey(buckets: map<string, Bucket>, name: string, faults: set<Api>, exclude: seq<string>, key: string)
    requires name in buckets
    requires LastNonManifest(KeysOf(buckets[name].objects)) == Some(key) && ',' !in key
    requires Api.GetObject !in faults && Api.DeleteObjects !in faults
    ensures PreparedBuckets(buckets, name, faults, true, Some(exclude)) ==
      Purged(ManifestRebuilt(buckets, name, KeysOf(buckets[name].objects)), name, if key in exclude then {} else {key})
  {
    var rebuilt := ManifestRebuilt(buckets, name, KeysOf(buckets[name].objects));
    RebuiltManifestReadsBack(buckets, name, faults, key);
    assert PreparedBuckets(buckets, name, faults, true, Some(exclude)) == Purged(rebuilt, name, set k | k in Exclude([key], exclude));
    ExcludeMembers([key], exclude);
    assert (set k | k in Exclude([key], exclude)) == if key in exclude then {} else {key};
  }

  /** The manifest rebuilt from a listing whose last other key is `key` reads back as that key alone. */
  lemma RebuiltManifestReadsBack(buckets: map<string, Bucket>, name: string, faults: set<Api>, key: string)
    requires name in buckets
    requires LastNonManifest(KeysOf(buckets[name].objects)) == Some(key) && ',' !in key
    requires Api.GetObject !in faults
    ensures StoredManifest(ManifestRebuilt(buckets, name, KeysOf(buckets[name].objects)), faults, name) == [key]
  {
    var rebuilt := ManifestRebuilt(buckets, name, KeysOf(buckets[name].objects));
    assert rebuilt == WithObject(buckets, name, ManifestFile, Encode([key]));
    assert Lookup(rebuilt[name].objects, ManifestFile) == Some(Encode([key]));
    ManifestRoundTrip([key]);
  }

  /** `PreparedBuckets` with the purge flag and exclusions as `deploy` reads them from the configuration. */
  function DeployedBuckets(buckets: map<string, Bucket>, name: string, faults: set<Api>, config: Config): map<string, Bucket>
    requires name in buckets
  {
    PreparedBuckets(buckets, name, faults, config.purgeFiles == Given(true), ExcludeFiles(config.purgeExcludeFiles))
  }

  /** What `deploy` reports: the site was not set up, or it was deployed. */
  datatype Deployment = NotSetUp | Deployed

  /** The steps `deploy` takes on a site that exists. */
  function DeployPlan(purge: bool, invalidate: bool): (plan: seq<DeployStep>)
    ensures |plan| >= 2 && plan[0] == CreateManifest && plan[|plan| - 1] == Upload
    ensures PurgeFiles in plan <==> purge
    ensures InvalidateObjects in plan <==> invalidate
    ensures forall i, j :: 0 <= i < j < |plan| ==> plan[i] != plan[j]
  {
    ([CreateManifest] + if purge then [PurgeFiles] else [])
    + ((if invalidate then [InvalidateObjects] else []) + [Upload])
  }

  /**
   * `deploy`, given the working directory and the relative paths the walk
   * of the site directory yields. A site that does not exist is reported
   * and nothing is touched; a missing `site_directory` raises before any
   * change. Otherwise the manifest is rebuilt, old files are purged and the
   * CDN invalidated when the flags say so, and every file is uploaded,
   * after which the manifest lists exactly the uploaded keys.
   */
  method Deploy(client: S3lify, config: Config, cwd: string, files: seq<string>, guess: string -> Option<string>)
    returns (r: Result<Deployment>, trace: seq<DeployStep>)
    modifies client.provider`buckets, client.provider`invalidations, client.provider`uploads
    ensures old(client.SiteExists()).Raise? ==> r.Raise? && trace == [] && unchanged(client.provider)
    ensures old(client.SiteExists()) == Ok(false) ==> r == Ok(NotSetUp) && trace == [] && unchanged(client.provider)
    ensures old(client.SiteExists()) == Ok(true) && !config.siteDirectory.Given? ==>
      r.Raise? && trace == [] && unchanged(client.provider)
    ensures old(client.SiteExists()) == Ok(true) && config.siteDirectory.Given? ==>
      && r == Ok(Deployed)
      && trace == DeployPlan(config.purgeFiles == Given(true), config.invalidateCloudfrontObjects == Given(true))
      && client.provider.uploads ==
           old(client.provider.uploads) + UploadRequests(client.site.domain, PathJoin(cwd, config.siteDirectory.value), files, guess)
    ensures old(client.SiteExists()) == Ok(true) && config.siteDirectory.Given? ==>
      && client.site.S3Bucket() in old(client.provider.buckets)
      && client.site.S3Bucket() in DeployedBuckets(old(client.provider.buckets), client.site.S3Bucket(), client.provider.faults, config)
      && client.provider.buckets ==
           WithManifest(DeployedBuckets(old(client.provider.buckets), client.site.S3Bucket(), client.provider.faults, config),
                        client.site.S3Bucket(), files)
      && client.provider.invalidations ==
           old(client.provider.invalidations)
           + InvalidationsFor(config.invalidateCloudfrontObjects == Given(true), client.CloudfrontGetDistributionId())
    ensures (r == Ok(Deployed) && |files| > 0 && Api.GetObject !in client.provider.faults
             && (forall i :: 0 <= i < |files| ==> ',' !in files[i])) ==>
      client.S3GetManifest() == files
    ensures r == Ok(Deployed) ==> client.SiteExists() == Ok(true)
  {
    trace := [];
    var siteExists := client.SiteExists();
    if siteExists.Raise? {
      return Raise(siteExists.exc), trace;
    }
    if !siteExists.value {
      return Ok(NotSetUp), trace;
    }
    if !config.siteDirectory.Given? {
      return Raise(TypeError("expected str, bytes or os.PathLike object, not NoneType")), trace;
    }
    var siteDirectory := PathJoin(cwd, config.siteDirectory.value);
    trace := DeploySite(client, siteDirectory, config.purgeFiles == Given(true), ExcludeFiles(config.purgeExcludeFiles),
                        config.invalidateCloudfrontObjects == Given(true), files, guess);
    return Ok(Deployed), trace;
  }

  /**
   * The steps of `deploy` on a site whose bucket is there: rebuild the
   * manifest, purge and invalidate when asked, upload every file. The
   * bucket stays, and the manifest then lists exactly the uploaded keys.
   */
  method DeploySite(client: S3lify, siteDirectory: string, purge: bool, exclude: Option<seq<string>>, invalidate: bool,
                    files: seq<string>, guess: string -> Option<string>) returns (trace: seq<DeployStep>)
    requires client.site.S3Bucket() in client.provider.buckets
    modifies client.provider`buckets, client.provider`invalidations, client.provider`uploads
    ensures trace == DeployPlan(purge, invalidate)
    ensures client.site.S3Bucket() in client.provider.buckets
    ensures client.provider.buckets[client.site.S3Bucket()].website == old(client.provider.buckets)[client.site.S3Bucket()].website
    ensures client.provider.uploads == old(client.provider.uploads) + UploadRequests(client.site.domain, siteDirectory, files, guess)
    ensures (|files| > 0 && Api.GetObject !in client.provider.faults && (forall i :: 0 <= i < |files| ==> ',' !in files[i])) ==>
      client.S3GetManifest() == files
    ensures client.site.S3Bucket() in PreparedBuckets(old(client.provider.buckets), client.site.S3Bucket(), client.provider.faults, purge, exclude)
    ensures client.provider.buckets ==
      WithManifest(PreparedBuckets(old(client.provider.buckets), client.site.S3Bucket(), client.provider.faults, purge, exclude),
                   client.site.S3Bucket(), files)
    ensures client.provider.invalidations ==
      old(client.provider.invalidations) + InvalidationsFor(invalidate, client.CloudfrontGetDistributionId())
  {
    trace := DeployPrepare(client, purge, exclude);
    var more := DeployPublish(client, siteDirectory, invalidate, files, guess);
    trace := trace + more;
  }

  /**
   * The last steps of `deploy`: invalidate the CDN when asked, then upload
   * every file and list them in the manifest. The bucket's website stays.
   */
  method DeployPublish(client: S3lify, siteDirectory: string, invalidate: bool, files: seq<string>,
                       guess: string -> Option<string>) returns (trace: seq<DeployStep>)
    requires client.site.S3Bucket() in client.provider.buckets
    modifies client.provider`buckets, client.provider`invalidations, client.provider`uploads
    ensures trace == (if invalidate then [InvalidateObjects] else []) + [Upload]
    ensures client.site.S3Bucket() in client.provider.buckets
    ensures client.provider.buckets[client.site.S3Bucket()].website == old(client.provider.buckets)[client.site.S3Bucket()].website
    ensures client.provider.buckets == WithManifest(old(client.provider.buckets), client.site.S3Bucket(), files)
    ensures client.provider.uploads == old(client.provider.uploads) + UploadRequests(client.site.domain, siteDirectory, files, guess)
    ensures (|files| > 0 && Api.GetObject !in client.provider.faults && (forall i :: 0 <= i < |files| ==> ',' !in files[i])) ==>
      client.S3GetManifest() == files
    ensures client.provider.invalidations ==
      old(client.provider.invalidations) + InvalidationsFor(invalidate, client.CloudfrontGetDistributionId())
  {
    trace := [];
    if invalidate {
      trace := [InvalidateObjects];
      client.CloudfrontInvalidateObjects();
    }
    trace := trace + [Upload];
    var _ := client.S3Upload(siteDirectory, files, guess);
  }

  /**
   * Rebuild the manifest, then purge the files it lists when asked; the
   * bucket and its website stay.
   */
  method DeployPrepare(client: S3lify, purge: bool, exclude: Option<seq<string>>) returns (trace: seq<DeployStep>)
    requires client.site.S3Bucket() in client.provider.buckets
    modifies client.provider`buckets
    ensures trace == [CreateManifest] + (if purge then [PurgeFiles] else [])
    ensures client.site.S3Bucket() in client.provider.buckets
    ensures client.provider.buckets[client.site.S3Bucket()].website == old(client.provider.buckets)[client.site.S3Bucket()].website
    ensures client.provider.buckets ==
      PreparedBuckets(old(client.provider.buckets), client.site.S3Bucket(), client.provider.faults, purge, exclude)
  {
    var bucket := client.site.S3Bucket();
    trace := [CreateManifest];
    var _ := client.S3CreateManifest();
    assert bucket in client.provider.buckets && client.provider.buckets[bucket].website == old(client.provider.buckets)[bucket].website;
    if purge {
      trace := trace + [PurgeFiles];
      ghost var before := client.provider.buckets;
      var _ := client.S3PurgeFiles(exclude);
      assert bucket in client.provider.buckets && client.provider.buckets[bucket].website == before[bucket].website;
    }
  }
}
