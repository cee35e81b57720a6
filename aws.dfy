/**
 * The cloud provider as abstract state: S3 buckets with their objects,
 * Route 53 hosted zones, the Route 53 Domains registrar, ACM certificates,
 * CloudFront distributions, and the uploads and invalidations handed to the
 * provider. Each boto3 call s3lify makes is a lookup (a function) or an
 * update (a method) on this state; nothing here tries to reproduce AWS
 * beyond what s3lify's decisions depend on.
 */
module Aws {
  import opened Base
  import opened Text
  import opened Search

  /** Calls whose failure s3lify handles in a particular way. */
  datatype Api = HeadBucket | GetObject | DeleteObjects | GetDomainDetail | UpdateDomainNameservers

  /** A bucket's website configuration. */
  datatype Website =
    | IndexDocument(suffix: string, errorKey: string)
    | RedirectAll(hostName: string, protocol: string)

  /** The bucket policy s3lify attaches: public read of every object under `resource`. */
  datatype Policy = PublicRead(resource: string)

  datatype StoredObject = StoredObject(key: string, body: string)

  /** A bucket; `objects` is in the order a listing returns them. */
  datatype Bucket = Bucket(policy: Option<Policy>, website: Option<Website>, objects: seq<StoredObject>)

  const EmptyBucket: Bucket := Bucket(None, None, [])

  function KeysOf(objects: seq<StoredObject>): (keys: seq<string>)
    ensures |keys| == |objects|
    ensures forall i :: 0 <= i < |objects| ==> keys[i] == objects[i].key
  {
    seq(|objects|, i requires 0 <= i < |objects| => objects[i].key)
  }

  /** The body stored under `key`, if any. */
  function Lookup(objects: seq<StoredObject>, key: string): (r: Option<string>)
    ensures r.None? <==> key !in KeysOf(objects)
  {
    if |objects| == 0 then None
    else if objects[0].key == key then Some(objects[0].body)
    else Lookup(objects[1..], key)
  }

  /** `put_object`: overwrite the object stored under `key`, or add it at the end. */
  function Put(objects: seq<StoredObject>, key: string, body: string): (r: seq<StoredObject>)
    ensures Lookup(r, key) == Some(body)
    ensures forall k :: k != key ==> Lookup(r, k) == Lookup(objects, k)
  {
    if |objects| == 0 then [StoredObject(key, body)]
    else if objects[0].key == key then [StoredObject(key, body)] + objects[1..]
    else [objects[0]] + Put(objects[1..], key, body)
  }

  /** A second write under the same key replaces the first one entirely. */
  lemma {:induction false} PutPut(objects: seq<StoredObject>, key: string, a: string, b: string)
    ensures Put(Put(objects, key, a), key, b) == Put(objects, key, b)
  {
    if |objects| > 0 && objects[0].key != key {
      PutPut(objects[1..], key, a, b);
    }
  }

  /** `delete_objects`: drop every object whose key is in `keys`. */
  function RemoveKeys(objects: seq<StoredObject>, keys: set<string>): (r: seq<StoredObject>)
    ensures forall k :: Lookup(r, k) == if k in keys then None else Lookup(objects, k)
  {
    if |objects| == 0 then []
    else if objects[0].key in keys then RemoveKeys(objects[1..], keys)
    else [objects[0]] + RemoveKeys(objects[1..], keys)
  }

  lemma {:induction false} RemoveKeysTwice(objects: seq<StoredObject>, a: set<string>, b: set<string>)
    ensures RemoveKeys(RemoveKeys(objects, a), b) == RemoveKeys(objects, a + b)
  {
    if |objects| > 0 {
      RemoveKeysTwice(objects[1..], a, b);
    }
  }

  lemma {:induction false} RemoveNoKeys(objects: seq<StoredObject>)
    ensures RemoveKeys(objects, {}) == objects
  {
    if |objects| > 0 {
      RemoveNoKeys(objects[1..]);
      assert objects == [objects[0]] + objects[1..];
    }
  }

  /** The buckets after `keys` are deleted from bucket `name`. */
  function Purged(buckets: map<string, Bucket>, name: string, keys: set<string>): map<string, Bucket>
  {
    if name in buckets then
      buckets[name := buckets[name].(objects := RemoveKeys(buckets[name].objects, keys))]
    else buckets
  }

  lemma PurgedNothing(buckets: map<string, Bucket>, name: string)
    ensures Purged(buckets, name, {}) == buckets
  {
    if name in buckets {
      RemoveNoKeys(buckets[name].objects);
    }
  }

  lemma PurgedTwice(buckets: map<string, Bucket>, name: string, a: set<string>, b: set<string>)
    ensures Purged(Purged(buckets, name, a), name, b) == Purged(buckets, name, a + b)
  {
    if name in buckets {
      RemoveKeysTwice(buckets[name].objects, a, b);
    }
  }

  // ---- Route 53

  datatype RecordKey = RecordKey(name: string, rtype: string)

  datatype RecordValue =
    | AliasTarget(hostedZoneId: string, dnsName: string)
    | Cname(ttl: nat, value: string)

  /** One `UPSERT` entry of a change batch. */
  datatype Change = Upsert(key: RecordKey, value: RecordValue)

  /**
   * A hosted zone; `name` is as Route 53 stores it (fully qualified, with a
   * trailing dot) and `nameServers` are the values of its NS record set.
   */
  datatype HostedZone = HostedZone(id: nat, name: string, nameServers: seq<string>, records: map<RecordKey, RecordValue>)

  /** The record keys a change batch writes. */
  function ChangedKeys(changes: seq<Change>): set<RecordKey>
  {
    set c | c in changes :: c.key
  }

  /** The records after applying a change batch in order. */
  function ApplyChanges(records: map<RecordKey, RecordValue>, changes: seq<Change>): (r: map<RecordKey, RecordValue>)
    ensures r.Keys == records.Keys + ChangedKeys(changes)
    decreases |changes|
  {
    if |changes| == 0 then records
    else
      var last := changes[|changes| - 1];
      var earlier := changes[..|changes| - 1];
      assert changes == earlier + [last];
      ApplyChanges(records, earlier)[last.key := last.value]
  }

  /** A key no change writes keeps its record. */
  lemma {:induction false} ApplyChangesKeeps(records: map<RecordKey, RecordValue>, changes: seq<Change>, k: RecordKey)
    requires k in records && k !in ChangedKeys(changes)
    ensures ApplyChanges(records, changes)[k] == records[k]
    decreases |changes|
  {
    if |changes| > 0 {
      var earlier := changes[..|changes| - 1];
      assert changes == earlier + [changes[|changes| - 1]];
      assert ChangedKeys(earlier) <= ChangedKeys(changes);
      ApplyChangesKeeps(records, earlier, k);
    }
  }

  /** The last change to a key decides its record. */
  lemma {:induction false} ApplyChangesLastWins(records: map<RecordKey, RecordValue>, changes: seq<Change>, i: nat)
    requires i < |changes|
    requires forall j :: i < j < |changes| ==> changes[j].key != changes[i].key
    ensures ApplyChanges(records, changes)[changes[i].key] == changes[i].value
    decreases |changes|
  {
    var n := |changes| - 1;
    if i < n {
      var earlier := changes[..n];
      assert changes == earlier + [changes[n]];
      assert earlier[i] == changes[i];
      ApplyChangesLastWins(records, earlier, i);
    }
  }

  /** `change_resource_record_sets` on the zone with id `zoneId`. */
  function UpdateRecords(zones: seq<HostedZone>, zoneId: nat, changes: seq<Change>): (r: seq<HostedZone>)
    ensures |r| == |zones|
    ensures forall i :: 0 <= i < |zones| ==>
      r[i] == if zones[i].id == zoneId then zones[i].(records := ApplyChanges(zones[i].records, changes)) else zones[i]
  {
    seq(|zones|, i requires 0 <= i < |zones| =>
      if zones[i].id == zoneId then zones[i].(records := ApplyChanges(zones[i].records, changes)) else zones[i])
  }

  // ---- ACM

  datatype ResourceRecord = ResourceRecord(name: string, value: string)

  /** One entry of a certificate's `DomainValidationOptions`; `record` may not be there yet. */
  datatype DomainValidation = DomainValidation(domain: string, status: string, validationMethod: string, record: Option<ResourceRecord>)

  datatype Certificate = Certificate(arn: nat, domain: string, status: string, validations: seq<DomainValidation>)

  // ---- CloudFront

  /** What s3lify puts in a distribution config: its alias, origin and certificate. */
  datatype DistributionConfig = DistributionConfig(aliases: seq<string>, origins: seq<string>, certificateArn: nat)

  datatype Distribution = Distribution(id: nat, domainName: string, config: DistributionConfig)

  datatype Invalidation = Invalidation(distributionId: nat, paths: seq<string>)

  /** An upload handed to a worker thread; nothing says it has finished. */
  datatype UploadRequest = UploadRequest(bucket: string, localPath: string, key: string, contentType: string)

  const InternalError: Exception := ClientError("InternalError", "We encountered an internal error. Please try again.")

  class Provider {
    var buckets: map<string, Bucket>
    /** Bucket names owned by other accounts: `head_bucket` answers 403 for them. */
    var denied: set<string>
    /** Calls that currently fail with a service error. */
    var faults: set<Api>
    var zones: seq<HostedZone>
    /** The name servers Route 53 gives a new hosted zone. */
    var delegationSet: seq<string>
    /** Domains registered with Route 53 Domains, and their name servers. */
    var registrar: map<string, seq<string>>
    var certificates: seq<Certificate>
    var distributions: seq<Distribution>
    var uploads: seq<UploadRequest>
    var invalidations: seq<Invalidation>
    /** Source of fresh identifiers. */
    var nextId: nat

    /** Every identifier handed out so far is below `nextId`. */
    ghost predicate Valid()
      reads this`zones, this`certificates, this`distributions, this`nextId
    {
      && (forall i :: 0 <= i < |zones| ==> zones[i].id < nextId)
      && (forall i :: 0 <= i < |certificates| ==> certificates[i].arn < nextId)
      && (forall i :: 0 <= i < |distributions| ==> distributions[i].id < nextId)
    }

    // ---- S3

    /** `head_bucket`: an error for a bucket that is missing, foreign, or while the call fails. */
    function HeadBucketError(name: string): (r: Option<Exception>)
      reads this`faults, this`denied, this`buckets
      ensures r.None? <==> Api.HeadBucket !in faults && name !in denied && name in buckets
    {
      if Api.HeadBucket in faults then Some(InternalError)
      else if name in denied then Some(ClientError("403", "Forbidden"))
      else if name !in buckets then Some(ClientError("404", "Not Found"))
      else None
    }

    /** `get_bucket_website`: a missing configuration comes back as an empty answer. */
    function GetBucketWebsite(name: string): (r: Option<Website>)
      reads this`buckets
      ensures r.Some? <==> name in buckets && buckets[name].website.Some?
      ensures r.Some? ==> r == buckets[name].website
    {
      if name in buckets then buckets[name].website else None
    }

    method CreateBucket(name: string) returns (r: Result<()>)
      modifies this`buckets
      ensures r.Raise? <==> name in denied
      ensures r.Ok? ==> buckets == if name in old(buckets) then old(buckets) else old(buckets)[name := EmptyBucket]
      ensures r.Raise? ==> buckets == old(buckets)
    {
      if name in denied {
        return Raise(ClientError("BucketAlreadyExists", "The requested bucket name is not available."));
      }
      if name !in buckets {
        buckets := buckets[name := EmptyBucket];
      }
      return Ok(());
    }

    method PutBucketPolicy(name: string, policy: Policy)
      requires name in buckets
      modifies this`buckets
      ensures buckets == old(buckets)[name := old(buckets)[name].(policy := Some(policy))]
    {
      buckets := buckets[name := buckets[name].(policy := Some(policy))];
    }

    method PutBucketWebsite(name: string, website: Website)
      requires name in buckets
      modifies this`buckets
      ensures buckets == old(buckets)[name := old(buckets)[name].(website := Some(website))]
    {
      buckets := buckets[name := buckets[name].(website := Some(website))];
    }

    /** `list_objects_v2`: the keys in listing order (first page only). */
    function ListObjects(name: string): (r: Result<seq<string>>)
      reads this`buckets
      ensures r.Ok? <==> name in buckets
      ensures r.Ok? ==> r.value == KeysOf(buckets[name].objects)
    {
      if name in buckets then Ok(KeysOf(buckets[name].objects))
      else Raise(ClientError("NoSuchBucket", "The specified bucket does not exist"))
    }

    method PutObject(name: string, key: string, body: string) returns (r: Result<()>)
      modifies this`buckets
      ensures r.Ok? <==> name in old(buckets)
      ensures r.Ok? ==> buckets == old(buckets)[name := old(buckets)[name].(objects := Put(old(buckets)[name].objects, key, body))]
      ensures r.Raise? ==> buckets == old(buckets)
    {
      if name !in buckets {
        return Raise(ClientError("NoSuchBucket", "The specified bucket does not exist"));
      }
      buckets := buckets[name := buckets[name].(objects := Put(buckets[name].objects, key, body))];
      return Ok(());
    }

    /** `download_fileobj`: the body of an object. */
    function GetObject(name: string, key: string): (r: Result<string>)
      reads this`faults, this`buckets
      ensures r.Ok? <==> Api.GetObject !in faults && name in buckets && Lookup(buckets[name].objects, key).Some?
      ensures r.Ok? ==> Lookup(buckets[name].objects, key) == Some(r.value)
    {
      if Api.GetObject in faults then Raise(InternalError)
      else if name !in buckets then Raise(ClientError("404", "Not Found"))
      else match Lookup(buckets[name].objects, key)
        case None => Raise(ClientError("404", "Not Found"))
        case Some(body) => Ok(body)
    }

    method DeleteObjects(name: string, keys: seq<string>) returns (r: Result<()>)
      modifies this`buckets
      ensures r.Ok? <==> Api.DeleteObjects !in faults && name in old(buckets)
      ensures r.Ok? ==> buckets == Purged(old(buckets), name, set k | k in keys)
      ensures r.Raise? ==> buckets == old(buckets)
    {
      if Api.DeleteObjects in faults {
        return Raise(InternalError);
      }
      if name !in buckets {
        return Raise(ClientError("NoSuchBucket", "The specified bucket does not exist"));
      }
      buckets := Purged(buckets, name, set k | k in keys);
      return Ok(());
    }

    /** A worker thread's `upload_file`, recorded as dispatched. */
    method UploadFile(request: UploadRequest)
      modifies this`uploads
      ensures uploads == old(uploads) + [request]
    {
      uploads := uploads + [request];
    }

    // ---- Route 53

    method CreateHostedZone(name: string) returns (zone: HostedZone)
      requires Valid()
      modifies this`zones, this`nextId
      ensures Valid()
      ensures zone == HostedZone(old(nextId), name + ".", delegationSet, map[])
      ensures zones == old(zones) + [zone] && nextId == old(nextId) + 1
    {
      zone := HostedZone(nextId, name + ".", delegationSet, map[]);
      zones := zones + [zone];
      nextId := nextId + 1;
    }

    method ChangeResourceRecordSets(zoneId: nat, changes: seq<Change>)
      modifies this`zones
      ensures zones == UpdateRecords(old(zones), zoneId, changes)
      ensures old(Valid()) ==> Valid()
    {
      zones := UpdateRecords(zones, zoneId, changes);
    }

    /** `list_resource_record_sets`, keeping the values of the first NS record set. */
    function NameServerValues(zoneId: nat): (r: Option<seq<string>>)
      reads this`zones
      ensures r.None? <==> forall i :: 0 <= i < |zones| ==> zones[i].id != zoneId
      ensures r.Some? ==> exists i :: 0 <= i < |zones| && zones[i].id == zoneId && zones[i].nameServers == r.value
    {
      match FirstIndex(zones, (z: HostedZone) => z.id == zoneId)
      case None => None
      case Some(i) => Some(zones[i].nameServers)
    }

    // ---- Route 53 Domains

    function GetDomainDetail(domain: string): (r: Result<seq<string>>)
      reads this`faults, this`registrar
      ensures r.Ok? <==> Api.GetDomainDetail !in faults && domain in registrar
      ensures r.Ok? ==> r.value == registrar[domain]
    {
      if Api.GetDomainDetail in faults then Raise(InternalError)
      else if domain !in registrar then Raise(ClientError("InvalidInput", "Domain " + domain + " not found in this account"))
      else Ok(registrar[domain])
    }

    method UpdateDomainNameservers(domain: string, nameServers: seq<string>) returns (r: Result<()>)
      modifies this`registrar
      ensures r.Ok? <==> Api.UpdateDomainNameservers !in faults && domain in old(registrar)
      ensures r.Ok? ==> registrar == old(registrar)[domain := nameServers]
      ensures r.Raise? ==> registrar == old(registrar)
    {
      if Api.UpdateDomainNameservers in faults {
        return Raise(InternalError);
      }
      if domain !in registrar {
        return Raise(ClientError("InvalidInput", "Domain " + domain + " not found in this account"));
      }
      registrar := registrar[domain := nameServers];
      return Ok(());
    }

    // ---- ACM

    /** `describe_certificate`. */
    function DescribeCertificate(arn: nat): (r: Option<Certificate>)
      reads this`certificates
      ensures r.Some? ==> r.value in certificates && r.value.arn == arn
      ensures r.None? ==> forall i :: 0 <= i < |certificates| ==> certificates[i].arn != arn
    {
      match FirstIndex(certificates, (c: Certificate) => c.arn == arn)
      case None => None
      case Some(i) => Some(certificates[i])
    }

    /**
     * `request_certificate` with DNS validation. The new certificate waits
     * for validation; its validation record is already published.
     */
    method RequestCertificate(domain: string) returns (cert: Certificate)
      requires Valid()
      modifies this`certificates, this`nextId
      ensures Valid()
      ensures cert == PendingCertificate(old(nextId), domain)
      ensures certificates == old(certificates) + [cert] && nextId == old(nextId) + 1
    {
      cert := PendingCertificate(nextId, domain);
      certificates := certificates + [cert];
      nextId := nextId + 1;
    }

    // ---- CloudFront

    method CreateDistribution(config: DistributionConfig) returns (dist: Distribution)
      requires Valid()
      modifies this`distributions, this`nextId
      ensures Valid()
      ensures dist == Distribution(old(nextId), "d" + DecimalText(old(nextId)) + ".cloudfront.net", config)
      ensures distributions == old(distributions) + [dist] && nextId == old(nextId) + 1
    {
      dist := Distribution(nextId, "d" + DecimalText(nextId) + ".cloudfront.net", config);
      distributions := distributions + [dist];
      nextId := nextId + 1;
    }

    method CreateInvalidation(distributionId: nat, paths: seq<string>)
      modifies this`invalidations
      ensures invalidations == old(invalidations) + [Invalidation(distributionId, paths)]
    {
      invalidations := invalidations + [Invalidation(distributionId, paths)];
    }
  }

  /** A freshly requested certificate for `domain`, waiting for DNS validation. */
  function PendingCertificate(arn: nat, domain: string): Certificate
  {
    var token := "_" + DecimalText(arn);
    Certificate(arn, domain, "PENDING_VALIDATION",
      [DomainValidation(domain, "PENDING_VALIDATION", "DNS",
         Some(ResourceRecord(token + "." + domain + ".", token + ".acm-validations.aws.")))])
  }
}
