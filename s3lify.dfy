/**
 * The `S3lify` client: a site and the provider it drives. Probes are
 * functions of the provider state; every "create" first looks the resource
 * up by its natural key and creates it only when the lookup finds nothing.
 */
module Client {
  import opened Base
  import opened Text
  import opened Search
  import opened Chunks
  import opened Aws
  import opened Resolver
  import opened Sites
  import opened Manifest
  import opened Mimetype

  /** The error code of a bucket probe: a provider code, or the number 404 s3lify writes itself. */
  datatype ErrorCode = Code(text: string) | Number(n: int)

  /** `(exists, error_code, error_message)` of `s3_get_bucket_status`. */
  datatype BucketStatus = BucketStatus(found: bool, errorCode: Option<ErrorCode>, errorMessage: Option<string>)

  /** What `route53domains_update_dns` returns. */
  datatype NameServerSync =
    | Updated                        // True
    | AlreadyInSync                  // None: the registrar shares a server with the zone
    | NotRegistered(message: string) // (False, 404, message): an InvalidInput error
    | NotUpdated                     // False: any other provider error

  /** The errors `s3_get_bucket_status` turns into "not there". */
  predicate ForbiddenOrNotFound(e: Exception)
  {
    e.ClientError? && (e.code == "403" || e.code == "404")
  }

  /** `_make_cloudfront_config`, as far as it wires the site in: alias, origin and certificate. */
  function MakeCloudfrontConfig(domainName: string, s3Domain: string, sslArn: nat): (config: DistributionConfig)
    ensures Serves(Distribution(0, "", config), s3Domain)
  {
    DistributionConfig([domainName], [s3Domain], sslArn)
  }

  /** The buckets after `body` is stored under `key` in bucket `name`. */
  function WithObject(buckets: map<string, Bucket>, name: string, key: string, body: string): map<string, Bucket>
    requires name in buckets
  {
    buckets[name := buckets[name].(objects := Put(buckets[name].objects, key, body))]
  }

  lemma WithObjectTwice(buckets: map<string, Bucket>, name: string, key: string, a: string, b: string)
    requires name in buckets
    ensures WithObject(WithObject(buckets, name, key, a), name, key, b) == WithObject(buckets, name, key, b)
  {
    PutPut(buckets[name].objects, key, a, b);
  }

  lemma PrefixStep<T>(s: seq<T>, i: nat)
    requires i < |s|
    ensures s[..i + 1] == s[..i] + [s[i]]
  {
  }

  /** Deleting the keys of one more request after the earlier ones deletes the keys of all of them. */
  lemma PurgeStep(buckets: map<string, Bucket>, name: string, sent: seq<seq<string>>, request: seq<string>)
    ensures Purged(Purged(buckets, name, set k | k in Flatten(sent)), name, set k | k in request)
         == Purged(buckets, name, set k | k in Flatten(sent + [request]))
  {
    FlattenAppend(sent, [request]);
    assert Flatten([request]) == request + Flatten([request][1..]);
    assert [request][1..] == [];
    PurgedTwice(buckets, name, set k | k in Flatten(sent), set k | k in request);
    assert (set k | k in Flatten(sent + [request])) == (set k | k in Flatten(sent)) + (set k | k in request);
  }

  /** The upload `s3_upload` dispatches for one file of the tree, tagged with its content type. */
  function UploadFor(bucket: string, buildDir: string, file: string, guess: string -> Option<string>): UploadRequest
  {
    UploadRequest(bucket, PathJoin(buildDir, file), file, GetMimetype(guess, PathJoin(buildDir, file)))
  }

  /** `f` applied to every element, in order. */
  function MapSeq<A, B>(xs: seq<A>, f: A -> B): (ys: seq<B>)
    ensures |ys| == |xs|
    ensures forall i :: 0 <= i < |xs| ==> ys[i] == f(xs[i])
  {
    seq(|xs|, i requires 0 <= i < |xs| => f(xs[i]))
  }

  lemma MapSeqStep<A, B>(xs: seq<A>, f: A -> B, i: nat)
    requires i < |xs|
    ensures MapSeq(xs[..i + 1], f) == MapSeq(xs[..i], f) + [f(xs[i])]
  {
    assert MapSeq(xs[..i + 1], f)[..i] == MapSeq(xs[..i], f);
  }

  /** The upload of one file of `buildDir`. */
  function Uploader(bucket: string, buildDir: string, guess: string -> Option<string>): string -> UploadRequest
  {
    file => UploadFor(bucket, buildDir, file, guess)
  }

  /**
   * The uploads `s3_upload` dispatches for a file tree, one per file, in
   * walk order: upload `i` is for file `i`, with that file's content type.
   */
  function UploadRequests(bucket: string, buildDir: string, files: seq<string>, guess: string -> Option<string>): (reqs: seq<UploadRequest>)
    ensures |reqs| == |files|
    ensures forall i :: 0 <= i < |files| ==> reqs[i] == UploadFor(bucket, buildDir, files[i], guess)
  {
    MapSeq(files, Uploader(bucket, buildDir, guess))
  }

  /** The buckets after `s3_create_manifest` has gone through `keys`, the listing of bucket `name`. */
  function ManifestRebuilt(buckets: map<string, Bucket>, name: string, keys: seq<string>): map<string, Bucket>
    requires name in buckets
  {
    match LastNonManifest(keys)
    case None => buckets
    case Some(k) => WithObject(buckets, name, ManifestFile, Encode([k]))
  }

  lemma ManifestRebuiltStep(buckets: map<string, Bucket>, name: string, keys: seq<string>, i: nat)
    requires name in buckets && i < |keys|
    ensures name in ManifestRebuilt(buckets, name, keys[..i])
    ensures ManifestRebuilt(buckets, name, keys[..i + 1]) ==
      if keys[i] == ManifestFile then ManifestRebuilt(buckets, name, keys[..i])
      else WithObject(ManifestRebuilt(buckets, name, keys[..i]), name, ManifestFile, Encode([keys[i]]))
  {
    assert keys[..i + 1][..i] == keys[..i];
    if keys[i] != ManifestFile {
      match LastNonManifest(keys[..i]) {
        case None =>
        case Some(k) => WithObjectTwice(buckets, name, ManifestFile, Encode([k]), Encode([keys[i]]));
      }
    }
  }

  /** The keys the manifest of bucket `name` lists, read as `_s3_get_manifest` reads them. */
  function StoredManifest(buckets: map<string, Bucket>, faults: set<Api>, name: string): seq<string>
  {
    if Api.GetObject in faults || name !in buckets then []
    else match Lookup(buckets[name].objects, ManifestFile)
      case None => []
      case Some(body) => Decode(body)
  }

  /** The buckets after `s3_purge_files` has gone through `manifest`. */
  function PurgedBuckets(buckets: map<string, Bucket>, name: string, manifest: seq<string>,
                         exclude: Option<seq<string>>, faults: set<Api>): map<string, Bucket>
  {
    if exclude.None? || Api.DeleteObjects in faults then buckets
    else Purged(buckets, name, set k | k in Exclude(manifest, exclude.value))
  }

  // ---- Records as the site finds them

  /** The zone found for `tld` holds `value` under `key`. */
  predicate HasRecord(zones: seq<HostedZone>, tld: string, key: RecordKey, value: RecordValue)
  {
    match FindZone(zones, tld)
    case None => false
    case Some(z) => key in z.records && z.records[key] == value
  }

  /** The site's A record, and its www A record when `set_www` is on, alias `target`. */
  predicate SiteAliased(zones: seq<HostedZone>, site: Site, target: RecordValue)
  {
    && HasRecord(zones, site.tldDomain, RecordKey(site.domain, "A"), target)
    && (site.SetWww() ==> HasRecord(zones, site.tldDomain, RecordKey(site.WwwDomain(), "A"), target))
  }

  /** A change batch sent to the zone found for `tld` lands in the zone the next lookup finds. */
  lemma UpdatedZoneFound(zones: seq<HostedZone>, tld: string, zone: HostedZone, changes: seq<Change>)
    requires FindZone(zones, tld) == Some(zone)
    ensures FindZone(UpdateRecords(zones, zone.id, changes), tld) == Some(zone.(records := ApplyChanges(zone.records, changes)))
  {
    var named := (z: HostedZone) => ZoneNamed(z, tld);
    var updated := UpdateRecords(zones, zone.id, changes);
    var i := FirstIndex(zones, named).value;
    assert zones[i] == zone;
    assert forall j :: 0 <= j < |zones| ==> named(updated[j]) == named(zones[j]);
    FirstIndexIs(updated, named, i);
  }

  /** After the A-record batch reaches the zone found for the site, the site is aliased to its target. */
  lemma ARecordsLand(zones: seq<HostedZone>, site: Site, zone: HostedZone, dnsName: string, aliasZone: string)
    requires FindZone(zones, site.tldDomain) == Some(zone)
    ensures SiteAliased(UpdateRecords(zones, zone.id, ARecordChanges(site, dnsName, aliasZone)), site, AliasTarget(aliasZone, dnsName))
  {
    UpdatedZoneFound(zones, site.tldDomain, zone, ARecordChanges(site, dnsName, aliasZone));
    ARecordsApplied(site, dnsName, aliasZone, zone.records);
  }

  /** After one CNAME upsert reaches the zone found for `tld`, that zone holds the record. */
  lemma CnameLands(zones: seq<HostedZone>, tld: string, zone: HostedZone, name: string, value: string)
    requires FindZone(zones, tld) == Some(zone)
    ensures HasRecord(UpdateRecords(zones, zone.id, [Upsert(RecordKey(name, "CNAME"), Cname(30, value))]), tld,
                      RecordKey(name, "CNAME"), Cname(30, value))
  {
    var change := Upsert(RecordKey(name, "CNAME"), Cname(30, value));
    UpdatedZoneFound(zones, tld, zone, [change]);
    assert [change][..0] == [];
  }

  // ---- Registrar

  /**
   * The registrar after `route53domains_update_dns` saw the name servers
   * `ns`: they replace the domain's servers only when the domain is
   * registered, shares none of them, and both calls succeed.
   */
  function SyncedRegistrar(registrar: map<string, seq<string>>, faults: set<Api>, tld: string, ns: Option<seq<string>>)
    : map<string, seq<string>>
  {
    if && ns.Some? && Api.GetDomainDetail !in faults && tld in registrar
       && NameServersDisjoint(ns.value, registrar[tld]) && Api.UpdateDomainNameservers !in faults
    then registrar[tld := ns.value]
    else registrar
  }

  /** Syncing twice with the same zone servers changes nothing the first sync did not. */
  lemma SyncIdempotent(registrar: map<string, seq<string>>, faults: set<Api>, tld: string, ns: Option<seq<string>>)
    ensures SyncedRegistrar(SyncedRegistrar(registrar, faults, tld, ns), faults, tld, ns) == SyncedRegistrar(registrar, faults, tld, ns)
  {
    var once := SyncedRegistrar(registrar, faults, tld, ns);
    if ns.Some? && |ns.value| > 0 && once != registrar {
      SyncSettles(ns.value);
    }
  }

  class S3lify {
    const site: Site
    const provider: Provider

    constructor (domain: string, tldDomain: string, region: Option<string>, provider: Provider)
      ensures site == Site(domain, tldDomain, region) && this.provider == provider
    {
      site := Site(domain, tldDomain, region);
      this.provider := provider;
    }

    // ---- S3 probes

    /**
     * `s3_get_bucket_status`: found when the bucket is ours and has a
     * website configuration; a 403 or 404 answer is "not found" with that
     * code; a bucket without website configuration is "not found" with the
     * number 404; any other error propagates.
     */
    function S3GetBucketStatus(name: string): (r: Result<BucketStatus>)
      reads provider`faults, provider`denied, provider`buckets
      ensures r.Ok? && r.value.found <==> provider.HeadBucketError(name).None? && provider.GetBucketWebsite(name).Some?
      ensures r.Raise? <==> provider.HeadBucketError(name).Some? && !ForbiddenOrNotFound(provider.HeadBucketError(name).value)
      ensures r == Ok(BucketStatus(false, Some(Code("404")), Some("Not Found"))) <==>
        Api.HeadBucket !in provider.faults && name !in provider.denied && name !in provider.buckets
      ensures r.Ok? && r.value.errorCode == Some(Code("403")) <==> Api.HeadBucket !in provider.faults && name in provider.denied
      ensures r.Ok? && r.value.errorCode == Some(Number(404)) <==>
        provider.HeadBucketError(name).None? && provider.GetBucketWebsite(name).None?
    {
      match provider.HeadBucketError(name)
      case Some(e) =>
        if ForbiddenOrNotFound(e) then Ok(BucketStatus(false, Some(Code(e.code)), Some(e.message))) else Raise(e)
      case None =>
        if provider.GetBucketWebsite(name).None? then Ok(BucketStatus(false, Some(Number(404)), Some("Configure improrperly")))
        else Ok(BucketStatus(true, None, None))
    }

    /** The `site_exists` property. */
    function SiteExists(): (r: Result<bool>)
      reads provider`faults, provider`denied, provider`buckets
      ensures r == Ok(true) <==>
        Api.HeadBucket !in provider.faults && site.domain !in provider.denied
        && site.domain in provider.buckets && provider.buckets[site.domain].website.Some?
    {
      match S3GetBucketStatus(site.domain)
      case Raise(e) => Raise(e)
      case Ok(status) => Ok(status.found)
    }

    /**
     * `s3_create_site`: create and configure the site's bucket (and, for an
     * apex domain, the `www` bucket redirecting to it) only when the probe
     * answered the text code "404"; otherwise raise, unless the site is
     * already there.
     */
    method S3CreateSite(indexFile: string, errorFile: string) returns (r: Result<bool>)
      modifies provider`buckets
      ensures old(S3GetBucketStatus(site.S3Bucket())).Raise? ==>
        r == Raise(old(S3GetBucketStatus(site.S3Bucket())).exc) && provider.buckets == old(provider.buckets)
      ensures old(S3GetBucketStatus(site.S3Bucket())) == Ok(BucketStatus(true, None, None)) ==>
        r == Ok(true) && provider.buckets == old(provider.buckets)
      ensures (old(S3GetBucketStatus(site.S3Bucket())).Ok? && !old(S3GetBucketStatus(site.S3Bucket())).value.found
               && old(S3GetBucketStatus(site.S3Bucket())).value.errorCode != Some(Code("404"))) ==>
        r.Raise? && provider.buckets == old(provider.buckets)
      ensures old(S3GetBucketStatus(site.S3Bucket())).Ok? && old(S3GetBucketStatus(site.S3Bucket())).value.errorCode == Some(Code("404")) ==>
        && site.S3Bucket() in provider.buckets
        && provider.buckets[site.S3Bucket()] ==
             Bucket(Some(PublicRead(site.PublicResource())), Some(IndexDocument(indexFile, errorFile)), [])
        && (r.Ok? <==> !site.SetWww() || site.WwwBucket() !in provider.denied)
        && (r.Ok? && site.SetWww() ==>
              site.WwwBucket() in provider.buckets
              && provider.buckets[site.WwwBucket()].website == Some(RedirectAll(site.domain, "https")))
        && (forall name :: name in old(provider.buckets) && name !in site.SiteBuckets() ==>
              name in provider.buckets && provider.buckets[name] == old(provider.buckets)[name])
      ensures r.Ok? ==> r.value && SiteExists() == Ok(true)
    {
      var status := S3GetBucketStatus(site.S3Bucket());
      if status.Raise? {
        return Raise(status.exc);
      }
      if !status.value.found {
        if status.value.errorCode == Some(Code("404")) {
          var bucket := site.S3Bucket();
          var created := provider.CreateBucket(bucket);
          provider.PutBucketPolicy(bucket, PublicRead(site.PublicResource()));
          provider.PutBucketWebsite(bucket, IndexDocument(indexFile, errorFile));
          if site.SetWww() {
            assert site.WwwBucket() != bucket by {
              assert |site.WwwBucket()| == |bucket| + 4;
            }
            var www := provider.CreateBucket(site.WwwBucket());
            if www.Raise? {
              return Raise(www.exc);
            }
            provider.PutBucketWebsite(site.WwwBucket(), RedirectAll(site.domain, "https"));
          }
          return Ok(true);
        } else {
          var message := match status.value.errorMessage case Some(m) => m case None => "None";
          return Raise(Failure("Can't create website's bucket '" + site.domain + "' on AWS S3. Error: " + message));
        }
      }
      return Ok(status.value.found);
    }

    // ---- Route 53

    /** `_route53_get_hosted_zone`. */
    function Route53GetHostedZone(): Option<HostedZone>
      reads provider`zones
    {
      FindZone(provider.zones, site.tldDomain)
    }

    /** The lookup finds a zone named after the registrable domain exactly when there is one. */
    lemma HostedZoneLookup()
      ensures Route53GetHostedZone().None? <==>
        forall i :: 0 <= i < |provider.zones| ==> !ZoneNamed(provider.zones[i], site.tldDomain)
      ensures Route53GetHostedZone().Some? ==>
        Route53GetHostedZone().value in provider.zones && ZoneNamed(Route53GetHostedZone().value, site.tldDomain)
    {
      var found := FindZone(provider.zones, site.tldDomain);
      if found.Some? {
        var i :| 0 <= i < |provider.zones| && provider.zones[i] == found.value && ZoneNamed(provider.zones[i], site.tldDomain);
      }
    }

    /** The zone `route53_create_hosted_zone` returns: the one found, or the one it creates. */
    function EnsuredZone(): HostedZone
      reads provider`zones, provider`nextId, provider`delegationSet
    {
      match Route53GetHostedZone()
      case Some(z) => z
      case None => HostedZone(provider.nextId, site.tldDomain + ".", provider.delegationSet, map[])
    }

    /** The zone list after `route53_create_hosted_zone`. */
    function ZonesWithEnsured(): seq<HostedZone>
      reads provider`zones, provider`nextId, provider`delegationSet
    {
      if Route53GetHostedZone().Some? then provider.zones else provider.zones + [EnsuredZone()]
    }

    /** The lookup after `route53_create_hosted_zone` finds the zone it returned, unless the domain ends with a dot. */
    lemma EnsuredZoneFound()
      ensures !EndsWith(site.tldDomain, '.') ==> FindZone(ZonesWithEnsured(), site.tldDomain) == Some(EnsuredZone())
    {
      if Route53GetHostedZone().None? {
        CreatedZoneFound(provider.zones, site.tldDomain, EnsuredZone());
      }
    }

    /**
     * `route53_create_hosted_zone`: return the zone named after the
     * registrable domain, creating it only when there is none. The next
     * call then finds it and creates nothing, unless the registrable domain
     * ends with a dot (no stored zone name matches it then).
     */
    method Route53CreateHostedZone() returns (zone: HostedZone)
      requires provider.Valid()
      modifies provider`zones, provider`nextId
      ensures provider.Valid()
      ensures zone == old(EnsuredZone()) && provider.zones == old(ZonesWithEnsured())
      ensures old(Route53GetHostedZone()).Some? ==> provider.nextId == old(provider.nextId)
      ensures !EndsWith(site.tldDomain, '.') ==> Route53GetHostedZone() == Some(zone)
      ensures EndsWith(site.tldDomain, '.') ==> Route53GetHostedZone().None?
    {
      var found := Route53GetHostedZone();
      if found.Some? {
        return found.value;
      }
      zone := provider.CreateHostedZone(site.tldDomain);
      CreatedZoneFound(old(provider.zones), site.tldDomain, zone);
    }

    /** `route53_set_cname`: upsert one CNAME record (TTL 30) in the ensured zone. */
    method Route53SetCname(name: string, value: string) returns (ok: bool)
      requires provider.Valid()
      modifies provider`zones, provider`nextId
      ensures provider.Valid()
      ensures ok
      ensures provider.zones ==
        UpdateRecords(old(ZonesWithEnsured()), old(EnsuredZone()).id, [Upsert(RecordKey(name, "CNAME"), Cname(30, value))])
    {
      var zone := Route53CreateHostedZone();
      provider.ChangeResourceRecordSets(zone.id, [Upsert(RecordKey(name, "CNAME"), Cname(30, value))]);
      return true;
    }

    /** `route53_get_ns_values`: the zone's name servers, or `None` without a zone. */
    function Route53GetNsValues(): (r: Option<seq<string>>)
      reads provider`zones
      ensures Route53GetHostedZone().None? ==> r.None?
    {
      match Route53GetHostedZone()
      case None => None
      case Some(z) => provider.NameServerValues(z.id)
    }

    /**
     * `route53domains_update_dns`: copy the zone's name servers to the
     * registrar, but only when the registrar's servers and the zone's share
     * none (trailing dots ignored). Without zone name servers the code
     * iterates over None and raises a `TypeError`; provider errors become
     * return values.
     */
    method Route53domainsUpdateDns() returns (r: Result<NameServerSync>)
      modifies provider`registrar
      ensures old(Route53GetNsValues()).None? ==> r.Raise?
      ensures r == Ok(Updated) <==>
        && old(Route53GetNsValues()).Some?
        && old(provider.GetDomainDetail(site.tldDomain)).Ok?
        && NameServersDisjoint(old(Route53GetNsValues()).value, old(provider.GetDomainDetail(site.tldDomain)).value)
        && Api.UpdateDomainNameservers !in provider.faults
      ensures r == Ok(Updated) ==> provider.registrar == old(provider.registrar)[site.tldDomain := old(Route53GetNsValues()).value]
      ensures r != Ok(Updated) ==> provider.registrar == old(provider.registrar)
      ensures (old(Route53GetNsValues()).Some? && old(provider.GetDomainDetail(site.tldDomain)) ==
               Raise(ClientError("InvalidInput", "Domain " + site.tldDomain + " not found in this account"))) ==>
        r == Ok(NotRegistered("Domain " + site.tldDomain + " not found in this account"))
      ensures r == Ok(AlreadyInSync) <==>
        && old(Route53GetNsValues()).Some?
        && old(provider.GetDomainDetail(site.tldDomain)).Ok?
        && !NameServersDisjoint(old(Route53GetNsValues()).value, old(provider.GetDomainDetail(site.tldDomain)).value)
      ensures provider.registrar == SyncedRegistrar(old(provider.registrar), provider.faults, site.tldDomain, old(Route53GetNsValues()))
    {
      var ns := Route53GetNsValues();
      if ns.None? {
        return Raise(TypeError("'NoneType' object is not iterable"));
      }
      var detail := provider.GetDomainDetail(site.tldDomain);
      if detail.Raise? {
        return Ok(SyncError(detail.exc));
      }
      if NameServersDisjoint(ns.value, detail.value) {
        var update := provider.UpdateDomainNameservers(site.tldDomain, ns.value);
        if update.Raise? {
          return Ok(SyncError(update.exc));
        }
        return Ok(Updated);
      }
      return Ok(AlreadyInSync);
    }

    /** The `except ClientError` handler of `route53domains_update_dns`. */
    static function SyncError(e: Exception): (r: NameServerSync)
      ensures r != Updated
    {
      if e.ClientError? && e.code == "InvalidInput" then NotRegistered(e.message) else NotUpdated
    }

    /**
     * `_route53_update_a_records`: ensure the zone, then upsert the batch of
     * A records aliasing `dnsName` in the alias zone. Without an explicit
     * alias zone, a region missing from the S3 table raises a `KeyError`,
     * after the zone has been ensured.
     */
    method Route53UpdateARecords(dnsName: string, zoneId: Option<string>) returns (r: Result<bool>)
      requires provider.Valid()
      modifies provider`zones, provider`nextId
      ensures provider.Valid()
      ensures r.Ok? <==> AliasZone(zoneId, site.region).Ok?
      ensures r.Ok? ==> (r.value && provider.zones ==
        UpdateRecords(old(ZonesWithEnsured()), old(EnsuredZone()).id, ARecordChanges(site, dnsName, AliasZone(zoneId, site.region).value)))
      ensures r.Raise? ==> provider.zones == old(ZonesWithEnsured())
    {
      var zone := Route53CreateHostedZone();
      var target := AliasZone(zoneId, site.region);
      if target.Raise? {
        return Raise(target.exc);
      }
      provider.ChangeResourceRecordSets(zone.id, ARecordChanges(site, dnsName, target.value));
      return Ok(true);
    }

    /** `s3_update_route53_a_records`: point the site's A records at the S3 website endpoint. */
    method S3UpdateRoute53ARecords() returns (r: Result<bool>)
      requires provider.Valid()
      modifies provider`zones, provider`nextId
      ensures provider.Valid()
      ensures r.Ok? <==> site.region.Some? && site.region.value in S3HostedZoneIds
      ensures r.Ok? ==> (provider.zones ==
        UpdateRecords(old(ZonesWithEnsured()), old(EnsuredZone()).id,
          ARecordChanges(site, site.S3WebsiteEndpoint(), S3HostedZoneIds[site.region.value])))
      ensures r.Ok? && !EndsWith(site.tldDomain, '.') ==>
        SiteAliased(provider.zones, site, AliasTarget(S3HostedZoneIds[site.region.value], site.S3WebsiteEndpoint()))
    {
      EnsuredZoneFound();
      ghost var zones := ZonesWithEnsured();
      ghost var zone := EnsuredZone();
      r := Route53UpdateARecords(site.S3WebsiteEndpoint(), None);
      if r.Ok? && !EndsWith(site.tldDomain, '.') {
        ARecordsLand(zones, site, zone, site.S3WebsiteEndpoint(), S3HostedZoneIds[site.region.value]);
      }
    }

    // ---- ACM

    /** `_acm_get_certificate_arn`. */
    function AcmGetCertificateArn(): Option<nat>
      reads provider`certificates
    {
      match FindCertificate(provider.certificates, site.domain)
      case None => None
      case Some(c) => Some(c.arn)
    }

    /** `acm_get_certificate_status`: there is a status exactly when there is a certificate. */
    function AcmGetCertificateStatus(): Option<string>
      reads provider`certificates
    {
      match AcmGetCertificateArn()
      case None => None
      case Some(arn) =>
        match provider.DescribeCertificate(arn)
        case None => None
        case Some(c) => Some(c.status)
    }

    /**
     * There is an ARN exactly when a certificate names the site's domain,
     * and then a status: that of a certificate with this ARN.
     */
    lemma CertificateHasStatus()
      ensures AcmGetCertificateArn().None? <==>
        forall i :: 0 <= i < |provider.certificates| ==> provider.certificates[i].domain != site.domain
      ensures AcmGetCertificateArn().Some? ==>
        exists i :: 0 <= i < |provider.certificates| && provider.certificates[i].domain == site.domain
          && provider.certificates[i].arn == AcmGetCertificateArn().value
      ensures AcmGetCertificateStatus().None? <==> AcmGetCertificateArn().None?
      ensures AcmGetCertificateStatus().Some? ==>
        exists i :: 0 <= i < |provider.certificates| && provider.certificates[i].arn == AcmGetCertificateArn().value
          && provider.certificates[i].status == AcmGetCertificateStatus().value
    {
      var cert := FindCertificate(provider.certificates, site.domain);
      if cert.Some? {
        var i :| 0 <= i < |provider.certificates| && provider.certificates[i] == cert.value;
        assert provider.certificates[i].arn == cert.value.arn;
      }
    }

    /**
     * `acm_generate_certificate`: request a DNS-validated certificate for
     * the domain only when none exists. Afterwards one exists either way.
     */
    method AcmGenerateCertificate() returns (created: bool)
      requires provider.Valid()
      modifies provider`certificates, provider`nextId
      ensures provider.Valid()
      ensures created <==> old(AcmGetCertificateArn()).None?
      ensures created ==> provider.certificates == old(provider.certificates) + [PendingCertificate(old(provider.nextId), site.domain)]
      ensures created ==> AcmGetCertificateStatus() == Some("PENDING_VALIDATION")
      ensures !created ==> provider.certificates == old(provider.certificates) && provider.nextId == old(provider.nextId)
      ensures AcmGetCertificateArn().Some?
    {
      var arn := AcmGetCertificateArn();
      if arn.Some? {
        return false;
      }
      var cert := provider.RequestCertificate(site.domain);
      CreatedCertificateFound(old(provider.certificates), cert);
      FirstIndexAppend(old(provider.certificates), [cert], (c: Certificate) => c.arn == cert.arn);
      return true;
    }

    /** `_acm_get_certificate_cname_config`: the validation scan of the domain's certificate. */
    function AcmGetCertificateCnameConfig(): (r: Result<Option<CnameConfig>>)
      reads provider`certificates
      ensures AcmGetCertificateArn().None? ==> r == Ok(None)
    {
      match AcmGetCertificateArn()
      case None => Ok(None)
      case Some(arn) =>
        match provider.DescribeCertificate(arn)
        case None => Ok(None)
        case Some(c) => ScanValidations(c.validations)
    }

    /** The scan found a pending record with both a name and a value. */
    static predicate Publishable(config: Result<Option<CnameConfig>>)
    {
      config.Ok? && config.value.Some? && config.value.value.PendingCname?
      && config.value.value.name != "" && config.value.value.value != ""
    }

    /** `acm_update_route53_cname_records`: publish the validation CNAME only when the scan gave both parts. */
    method AcmUpdateRoute53CnameRecords() returns (r: Result<bool>)
      requires provider.Valid()
      modifies provider`zones, provider`nextId
      ensures provider.Valid()
      ensures r.Raise? <==> old(AcmGetCertificateCnameConfig()).Raise?
      ensures r == Ok(true) <==> Publishable(old(AcmGetCertificateCnameConfig()))
      ensures r == Ok(true) ==> (provider.zones ==
        UpdateRecords(old(ZonesWithEnsured()), old(EnsuredZone()).id,
          [Upsert(RecordKey(old(AcmGetCertificateCnameConfig()).value.value.name, "CNAME"),
                  Cname(30, old(AcmGetCertificateCnameConfig()).value.value.value))]))
      ensures r != Ok(true) ==> provider.zones == old(provider.zones) && provider.nextId == old(provider.nextId)
      ensures r == Ok(true) && !EndsWith(site.tldDomain, '.') ==>
        HasRecord(provider.zones, site.tldDomain, RecordKey(old(AcmGetCertificateCnameConfig()).value.value.name, "CNAME"),
                  Cname(30, old(AcmGetCertificateCnameConfig()).value.value.value))
    {
      EnsuredZoneFound();
      ghost var zones := ZonesWithEnsured();
      ghost var zone := EnsuredZone();
      var config := AcmGetCertificateCnameConfig();
      if config.Raise? {
        return Raise(config.exc);
      }
      if Publishable(config) {
        var _ := Route53SetCname(config.value.value.name, config.value.value.value);
        if !EndsWith(site.tldDomain, '.') {
          CnameLands(zones, site.tldDomain, zone, config.value.value.name, config.value.value.value);
        }
        return Ok(true);
      }
      return Ok(false);
    }

    // ---- CloudFront

    /** The distribution whose origin is the site's website endpoint, if any. */
    function CloudfrontGetDistribution(): Option<Distribution>
      reads provider`distributions
    {
      FindDistribution(provider.distributions, site.S3Domain())
    }

    /** `cloudfront_get_distribution_id`. */
    function CloudfrontGetDistributionId(): (r: Option<nat>)
      reads provider`distributions
      ensures r.Some? <==> CloudfrontGetDistribution().Some?
      ensures r.Some? ==> r.value == CloudfrontGetDistribution().value.id
    {
      match CloudfrontGetDistribution()
      case None => None
      case Some(d) => Some(d.id)
    }

    /**
     * `cloudfront_create_distribution`: create a distribution for the site
     * only when none serves it yet and a certificate exists to alias it.
     */
    method CloudfrontCreateDistribution() returns (created: Option<Distribution>)
      requires provider.Valid()
      modifies provider`distributions, provider`nextId
      ensures provider.Valid()
      ensures created.Some? <==> old(CloudfrontGetDistributionId()).None? && old(AcmGetCertificateArn()).Some?
      ensures created.Some? ==>
        && provider.distributions == old(provider.distributions) + [created.value]
        && created.value.config == MakeCloudfrontConfig(site.domain, site.S3Domain(), old(AcmGetCertificateArn()).value)
      ensures created.None? ==> provider.distributions == old(provider.distributions) && provider.nextId == old(provider.nextId)
      ensures old(CloudfrontGetDistributionId()).Some? || old(AcmGetCertificateArn()).Some? ==> CloudfrontGetDistributionId().Some?
    {
      var id := CloudfrontGetDistributionId();
      if id.None? {
        var arn := AcmGetCertificateArn();
        if arn.Some? {
          var config := MakeCloudfrontConfig(site.domain, site.S3Domain(), arn.value);
          var dist := provider.CreateDistribution(config);
          CreatedDistributionFound(old(provider.distributions), site.S3Domain(), dist);
          return Some(dist);
        }
      }
      return None;
    }

    /** `cloudfront_update_route53_a_records`: alias the A records to the site's distribution, if any. */
    method CloudfrontUpdateRoute53ARecords()
      requires provider.Valid()
      modifies provider`zones, provider`nextId
      ensures provider.Valid()
      ensures old(CloudfrontGetDistribution()).None? ==> provider.zones == old(provider.zones) && provider.nextId == old(provider.nextId)
      ensures old(CloudfrontGetDistribution()).Some? ==> (provider.zones ==
        UpdateRecords(old(ZonesWithEnsured()), old(EnsuredZone()).id,
          ARecordChanges(site, old(CloudfrontGetDistribution()).value.domainName, CloudFrontZoneId)))
      ensures old(CloudfrontGetDistribution()).Some? && !EndsWith(site.tldDomain, '.') ==>
        SiteAliased(provider.zones, site, AliasTarget(CloudFrontZoneId, old(CloudfrontGetDistribution()).value.domainName))
    {
      EnsuredZoneFound();
      ghost var zones := ZonesWithEnsured();
      ghost var zone := EnsuredZone();
      var dist := CloudfrontGetDistribution();
      if dist.Some? {
        var _ := Route53UpdateARecords(dist.value.domainName, Some(CloudFrontZoneId));
        if !EndsWith(site.tldDomain, '.') {
          ARecordsLand(zones, site, zone, dist.value.domainName, CloudFrontZoneId);
        }
      }
    }

    /** `cloudfront_invalidate_objects`: invalidate every path of the site's distribution, if any. */
    method CloudfrontInvalidateObjects()
      modifies provider`invalidations
      ensures provider.invalidations == old(provider.invalidations) +
        match old(CloudfrontGetDistributionId()) case None => [] case Some(id) => [Invalidation(id, ["/*"])]
    {
      var id := CloudfrontGetDistributionId();
      if id.Some? {
        provider.CreateInvalidation(id.value, ["/*"]);
      }
    }

    // ---- Manifest and files

    /**
     * `_s3_get_manifest`: the keys the manifest lists, or `[]` when it
     * cannot be read. A readable manifest always lists at least one key, so
     * `[]` means exactly that the read failed.
     */
    function S3GetManifest(): (keys: seq<string>)
      reads provider`faults, provider`buckets
      ensures keys == [] <==> provider.GetObject(site.domain, ManifestFile).Raise?
      ensures provider.GetObject(site.domain, ManifestFile).Ok? ==> keys == Decode(provider.GetObject(site.domain, ManifestFile).value)
    {
      StoredManifest(provider.buckets, provider.faults, site.domain)
    }

    /**
     * `_s3_update_manifest`: store the comma-joined keys under the manifest
     * key; an empty list writes nothing and the previous manifest stays.
     * Reading back gives the same keys when none holds a comma.
     */
    method S3UpdateManifest(files: seq<string>) returns (r: Result<()>)
      modifies provider`buckets
      ensures |files| == 0 ==> r.Ok? && provider.buckets == old(provider.buckets)
      ensures |files| > 0 ==> (r.Ok? <==> site.S3Bucket() in old(provider.buckets))
      ensures |files| > 0 && r.Ok? ==>
        provider.buckets == WithObject(old(provider.buckets), site.S3Bucket(), ManifestFile, Encode(files))
      ensures |files| > 0 && r.Ok? && Api.GetObject !in provider.faults && (forall i :: 0 <= i < |files| ==> ',' !in files[i]) ==>
        S3GetManifest() == files
      ensures r.Raise? ==> provider.buckets == old(provider.buckets)
    {
      if |files| > 0 {
        r := provider.PutObject(site.S3Bucket(), ManifestFile, Encode(files));
        if r.Ok? && (forall i :: 0 <= i < |files| ==> ',' !in files[i]) {
          ManifestRoundTrip(files);
        }
      } else {
        r := Ok(());
      }
    }

    /**
     * `s3_create_manifest`, as written: `files = []` is reset inside the
     * loop, so every listed key other than the manifest overwrites the
     * manifest with itself alone. The manifest ends up naming the last such
     * key; with none (or an empty bucket) it is left as it was.
     */
    method S3CreateManifest() returns (r: Result<()>)
      modifies provider`buckets
      ensures r.Raise? <==> site.S3Bucket() !in old(provider.buckets)
      ensures r.Ok? ==>
        provider.buckets == ManifestRebuilt(old(provider.buckets), site.S3Bucket(), KeysOf(old(provider.buckets)[site.S3Bucket()].objects))
    {
      var listing := provider.ListObjects(site.S3Bucket());
      if listing.Raise? {
        return Raise(listing.exc);
      }
      var keys := listing.value;
      if |keys| > 0 {
        var i := 0;
        while i < |keys|
          invariant 0 <= i <= |keys|
          invariant site.S3Bucket() in provider.buckets
          invariant provider.buckets == ManifestRebuilt(old(provider.buckets), site.S3Bucket(), keys[..i])
        {
          var key := keys[i];
          var files := [];
          if key != ManifestFile {
            files := files + [key];
          }
          ManifestRebuiltStep(old(provider.buckets), site.S3Bucket(), keys, i);
          var _ := S3UpdateManifest(files);
          i := i + 1;
        }
        assert keys[..|keys|] == keys;
      }
      return Ok(());
    }

    /**
     * `s3_purge_files`: read the manifest and, chunk of 1000 keys by chunk,
     * delete the keys that are not excluded; a failing request is ignored
     * and the next chunk still goes. `sent` lists the requests issued. With
     * `None` for the exclusions every request fails on `f not in None`.
     */
    method S3PurgeFiles(exclude: Option<seq<string>>) returns (sent: seq<seq<string>>)
      modifies provider`buckets
      ensures exclude.None? ==> sent == [] && provider.buckets == old(provider.buckets)
      ensures exclude.Some? ==> sent == PurgeRequests(old(S3GetManifest()), exclude.value)
      ensures exclude.Some? && Api.DeleteObjects in provider.faults ==> provider.buckets == old(provider.buckets)
      ensures exclude.Some? && Api.DeleteObjects !in provider.faults ==>
        provider.buckets == Purged(old(provider.buckets), site.S3Bucket(), set k | k in Exclude(old(S3GetManifest()), exclude.value))
    {
      var manifest := S3GetManifest();
      var chunks := ChunkList(manifest, DeleteBatch);
      sent := [];
      PurgedNothing(old(provider.buckets), site.S3Bucket());
      assert (set k | k in Flatten(sent)) == {};
      var i := 0;
      while i < |chunks|
        invariant 0 <= i <= |chunks|
        invariant exclude.None? ==> sent == [] && provider.buckets == old(provider.buckets)
        invariant exclude.Some? ==> sent == PurgeRequests(manifest, exclude.value)[..i]
        invariant Api.DeleteObjects in provider.faults ==> provider.buckets == old(provider.buckets)
        invariant Api.DeleteObjects !in provider.faults ==>
          provider.buckets == Purged(old(provider.buckets), site.S3Bucket(), set k | k in Flatten(sent))
      {
        match exclude {
          case None =>
          case Some(ex) =>
            var request := Exclude(chunks[i], ex);
            var _ := provider.DeleteObjects(site.S3Bucket(), request);
            PurgeStep(old(provider.buckets), site.S3Bucket(), sent, request);
            PrefixStep(PurgeRequests(manifest, ex), i);
            sent := sent + [request];
        }
        i := i + 1;
      }
      if exclude.Some? {
        assert PurgeRequests(manifest, exclude.value)[..i] == PurgeRequests(manifest, exclude.value);
        PurgeDeletesExactly(manifest, exclude.value);
      }
    }

    /**
     * `s3_upload`: one upload per file of the tree (relative paths in walk
     * order), each tagged with its content type, then the manifest lists
     * exactly those keys. The uploads are only dispatched: nothing says they
     * finished before the manifest was written.
     */
    method S3Upload(buildDir: string, files: seq<string>, guess: string -> Option<string>) returns (r: Result<()>)
      modifies provider`uploads, provider`buckets
      ensures provider.uploads == old(provider.uploads) + UploadRequests(site.domain, buildDir, files, guess)
      ensures |files| == 0 ==> r.Ok? && provider.buckets == old(provider.buckets)
      ensures |files| > 0 ==> (r.Ok? <==> site.S3Bucket() in old(provider.buckets))
      ensures |files| > 0 && r.Ok? ==>
        provider.buckets == WithObject(old(provider.buckets), site.S3Bucket(), ManifestFile, Encode(files))
      ensures |files| > 0 && r.Ok? && Api.GetObject !in provider.faults && (forall i :: 0 <= i < |files| ==> ',' !in files[i]) ==>
        S3GetManifest() == files
      ensures r.Raise? ==> provider.buckets == old(provider.buckets)
    {
      var filesList := [];
      var i := 0;
      while i < |files|
        invariant 0 <= i <= |files|
        invariant filesList == files[..i]
        invariant provider.uploads == old(provider.uploads) + UploadRequests(site.domain, buildDir, files[..i], guess)
        invariant provider.buckets == old(provider.buckets)
      {
        assert files[..i + 1] == files[..i] + [files[i]];
        var request := UploadFor(site.domain, buildDir, files[i], guess);
        filesList := filesList + [request.key];
        provider.UploadFile(request);
        MapSeqStep(files, Uploader(site.domain, buildDir, guess), i);
        i := i + 1;
      }
      assert files[..|files|] == files;
      r := S3UpdateManifest(filesList);
    }
  }
}
