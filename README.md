# s3lify in Dafny

A model of s3lify, a command-line tool that publishes a static site on
AWS. It covers three tiers:

- **s3**: an S3 website bucket.
- **route53**: the bucket behind Route 53 A records.
- **cloudfront**: a CloudFront distribution with an ACM certificate.

The model covers:

- the `S3lify` client: the derived names, the lookups, the "ensure"
  operations, and the manifest of uploaded keys;
- the two commands that drive it, `setup` and `deploy`, and how `main`
  reads the configuration.

## Modules

| file | module | what it holds |
|---|---|---|
| `base.dfy` | `Base` | `Option`, `Result` and the exceptions the client raises or catches (`ClientError`, `KeyError`, `TypeError`, a generic failure). |
| `text.dfy` | `Text` | Python's `join`, `split`, `rstrip`, `lower` (ASCII letters) and `os.path.basename`/`splitext`/`join`, on `seq<char>`. |
| `search.dfy` | `Search` | the "first item that matches" loop every lookup uses. |
| `chunks.dfy` | `Chunks` | `chunk_list`. |
| `mimetype.dfy` | `Mimetype` | `get_mimetype` and its override table. |
| `aws.dfy` | `Aws` | the provider: `class Provider` holds one field per resource kind (buckets, hosted zones, registrar entries, certificates, distributions, invalidations, uploads). Each boto3 call is a function (reads) or a method (writes) with field-granular frames. |
| `sites.dfy` | `Sites` | the names derived from the domain, the S3 zone-id table, and the A-record change batch. |
| `resolver.dfy` | `Resolver` | the lookups of zones, certificates and distributions; the certificate-validation scan; the name-server comparison. |
| `manifest.dfy` | `Manifest` | the manifest format (`",".join` / `split(",")`) and the purge requests. |
| `s3lify.dfy` | `Client` | `class S3lify`: the client's operations over a `Provider`. |
| `cli.dfy` | `Cli` | how the configuration is read; `setup` and `deploy` as methods returning the trace of operations they started. |

### Modelling choices

- **Errors.** Exceptions are values. An operation that can raise returns
  `Result<T>`, and the Python `try`/`except` handlers become explicit
  branches.
- **Provider faults.** Failures that the source handles specially are
  switched on by `Provider.faults` and `Provider.denied`:
  - `head_bucket` errors other than 403/404 propagate;
  - a failed manifest read gives `[]`;
  - a failed `delete_objects` is swallowed;
  - registrar errors make the sync return a value.
- **Command traces.** `setup` and `deploy` return the list of client
  steps they started.
  - For `setup`, the trace is proved to be a prefix of a pure plan,
    `SetupPlan`, computed from the configuration and the provider's state
    at the start. On success it is the whole plan.
  - Lemmas on the plan state when each step happens, and that steps
    never repeat and always come in the code's order. The plan for a site
    whose bucket exists, whose certificate has a non-empty status and
    which already has a distribution holds no create or request step.
  - Beyond the trace, each command states the provider state it leaves:
    the website bucket `setup` creates, the A records it points at the S3
    endpoint or the distribution, the registrar sync, the validation
    CNAME, and for `deploy` the rebuilt manifest, the purge, the uploads
    and the invalidation.
- **Code over specification.** Where the code and its documentation
  disagree, the model follows the code:
  - `setup` never invalidates the CloudFront cache.
  - A distribution is created as soon as a certificate exists, without
    waiting for it to be issued.
  - `s3_create_manifest` resets its list inside the loop. The manifest
    therefore ends up naming only the last listed key, which
    `S3CreateManifest` states as written.
  - The "Configure improrperly" branch of `s3_get_bucket_status` returns
    the integer 404, not the text "404". `s3_create_site` then raises for a
    bucket that exists without a website configuration.
  - A missing `aws_region` makes the region `None`. The S3 alias zone
    lookup then raises `KeyError`.
  - A registrable domain that ends with a dot never matches a stored zone
    name, so each call creates another zone (`Resolver.CreatedZoneFound`).

## Model

| member | source | states |
|---|---|---|
| Text.Split | s3lify/__init__.py:540 | `str.split` on one character: never an empty list, and no piece holds the separator |
| Text.Join | s3lify/__init__.py:523 | `",".join`: the separator occurs in the result exactly when there are two or more parts or a part holds it |
| Text.SplitJoin | s3lify/__init__.py:523-540 | splitting the join of separator-free pieces gives the pieces back (induction) |
| Text.JoinSplit | s3lify/__init__.py:523-540 | joining the pieces of a split gives the string back (induction) |
| Text.RStrip | s3lify/__init__.py:150 | `rstrip(c)` is a prefix of its input that does not end in `c`, and only `c`s were removed |
| Text.RStripAppended | s3lify/__init__.py:150 | appending one `c` and stripping gives the string back exactly when it did not already end in `c` |
| Text.Lower | s3lify/__init__.py:58 | `str.lower` on ASCII: same length, no capital letter left, every other character unchanged, and each capital becomes its small letter |
| Text.LastIndexOf | s3lify/__init__.py:57 | the index found holds the character and none follows it; `None` exactly when the character is absent |
| Text.Basename | s3lify/__init__.py:57 | the last path component: the whole path when it holds no '/', otherwise the suffix after a '/' that holds no '/' |
| Text.Extension | s3lify/__init__.py:57 | `splitext`'s extension is empty, or is the suffix of the path from its last '.', with no '/' after that dot (so the dot is in the last component) |
| Text.ExtensionPresent | s3lify/__init__.py:57 | the extension is non-empty exactly when the last component has a '.' with some character other than '.' before it (a leading dot alone makes no extension) |
| Text.PathJoin | s3lify/cli.py:186 | `os.path.join`: an absolute name wins; otherwise the directory, one '/' when the directory is non-empty and does not end in one, then the name |
| Search.FirstIndex | s3lify/__init__.py:149-151 | the first index whose item matches: it matches and nothing before it does; `None` exactly when nothing matches |
| Search.FirstIndexAppend | s3lify/__init__.py:149-151 | appending items never changes a match already found; otherwise the match comes from the appended part, shifted |
| Chunks.ChunkList | s3lify/__init__.py:64-72 | every chunk is non-empty and at most `max(1, size)` long, all but the last exactly that long; no chunks exactly for an empty list |
| Chunks.ChunksConcatenate | s3lify/__init__.py:64-72 | concatenating the chunks gives the items back, in order |
| Chunks.ChunkIsSlice | s3lify/__init__.py:71-72 | chunk `k` is exactly the slice `items[k*n : (k+1)*n]`, clamped to the list's length |
| Chunks.ChunkCount | s3lify/__init__.py:71-72 | there are `ceil(len(items) / n)` chunks |
| Mimetype.GetMimetype | s3lify/__init__.py:53-61 | never empty; a non-empty system guess wins; otherwise the table entry for the lower-cased extension, else `application/octet-stream` |
| Mimetype.TableTypesNonEmpty | s3lify/__init__.py:20-32 | every entry of the override table is a non-empty type |
| Mimetype.ExtensionCaseIgnored | s3lify/__init__.py:57-60 | without a system guess, names whose extensions differ only in case get the same type |
| Mimetype.UnknownIsOctetStream | s3lify/__init__.py:59-61 | without a guess or a known extension the type is `application/octet-stream` |
| Aws.Lookup | s3lify/__init__.py:536 | a key is absent exactly when no stored object carries it |
| Aws.Put | s3lify/__init__.py:524-527 | after `put_object` the key reads back as the new body and every other key is unchanged |
| Aws.PutPut | s3lify/__init__.py:524-527 | two writes to one key equal the second write alone |
| Aws.RemoveKeys | s3lify/__init__.py:492-498 | after deletion the deleted keys are gone and every other key is unchanged |
| Aws.RemoveKeysTwice | s3lify/__init__.py:490-498 | deleting two key sets in turn equals deleting their union |
| Aws.RemoveNoKeys | s3lify/__init__.py:492-498 | deleting no key leaves the objects as they were |
| Aws.PurgedNothing | s3lify/__init__.py:492-498 | a purge of no key leaves every bucket as it was |
| Aws.PurgedTwice | s3lify/__init__.py:490-498 | two purges of the site bucket equal one purge of the union |
| Aws.ApplyChanges | s3lify/__init__.py:266-268 | an upsert batch defines exactly the old record keys plus the batch's keys |
| Aws.ApplyChangesKeeps | s3lify/__init__.py:266-268 | a record the batch does not name keeps its value |
| Aws.ApplyChangesLastWins | s3lify/__init__.py:266-268 | a change whose key no later change repeats decides that record's value |
| Aws.Provider.HeadBucketError | s3lify/__init__.py:473 | `head_bucket` succeeds exactly on an existing, permitted bucket without a fault |
| Aws.Provider.GetBucketWebsite | s3lify/__init__.py:474-476 | the bucket's website configuration, empty exactly when the bucket is missing or has none |
| Aws.Provider.CreateBucket | s3lify/__init__.py:415 | a denied name raises and changes nothing; otherwise the bucket exists afterwards (an existing one is kept) |
| Aws.Provider.PutBucketPolicy | s3lify/__init__.py:416 | only the named bucket's policy changes |
| Aws.Provider.PutBucketWebsite | s3lify/__init__.py:417 | only the named bucket's website configuration changes |
| Aws.Provider.ListObjects | s3lify/__init__.py:507 | listing succeeds exactly on an existing bucket and gives its keys |
| Aws.Provider.PutObject | s3lify/__init__.py:524-527 | succeeds exactly on an existing bucket, storing the body under the key; nothing changes on failure |
| Aws.Provider.GetObject | s3lify/__init__.py:536 | reading succeeds exactly when the object exists and no fault is set, and gives its body |
| Aws.Provider.DeleteObjects | s3lify/__init__.py:492-498 | on success exactly the listed keys leave the bucket; on failure nothing changes |
| Aws.Provider.UploadFile | s3lify/__init__.py:546-554 | each upload request is recorded once, in order |
| Aws.Provider.CreateHostedZone | s3lify/__init__.py:163-170 | a new zone named with a trailing dot is appended under a fresh id |
| Aws.Provider.ChangeResourceRecordSets | s3lify/__init__.py:187-189 | the zones become `UpdateRecords` of the batch: only the zone with that id changes, and its records take the batch |
| Aws.Provider.NameServerValues | s3lify/__init__.py:196-202 | the NS values of the zone with that id; none exactly when no zone has the id |
| Aws.Provider.GetDomainDetail | s3lify/__init__.py:214-215 | the registrar's name servers for a registered domain; it raises exactly for an unregistered domain or a fault |
| Aws.Provider.UpdateDomainNameservers | s3lify/__init__.py:220-223 | on success only that domain's name servers are replaced; nothing changes on failure |
| Aws.Provider.DescribeCertificate | s3lify/__init__.py:359-361 | the certificate with that ARN, or `None` exactly when none has it |
| Aws.Provider.RequestCertificate | s3lify/__init__.py:338-341 | a pending, DNS-validated certificate for the domain is appended under a fresh ARN |
| Aws.Provider.CreateDistribution | s3lify/__init__.py:283 | a distribution with the given configuration is appended under a fresh id |
| Aws.Provider.CreateInvalidation | s3lify/__init__.py:315-326 | the invalidation of those paths is recorded |
| Sites.Site.SiteBuckets | s3lify/__init__.py:119-121 | the site's bucket, plus the `www` bucket exactly for an apex domain, and the two are distinct |
| Sites.AliasZone | s3lify/__init__.py:242 | the zone given wins; otherwise the region's S3 zone, and a `KeyError` exactly when the region is missing or unknown |
| Sites.ARecordChanges | s3lify/__init__.py:234-264 | the batch starts with the domain's A record, and every change is an A-record alias to the target |
| Sites.ARecordNames | s3lify/__init__.py:234-264 | the batch names the domain, plus `www.` + domain exactly when `set_www`, and no name twice |
| Sites.ARecordsApplied | s3lify/__init__.py:232-269 | after the batch, the domain's A record (and for an apex domain the `www` one) aliases the target; without `www`, every other record is unchanged |
| Resolver.FindZone | s3lify/__init__.py:146-151 | the first zone whose name, trailing dots stripped, equals the registrable domain; `None` exactly when there is none |
| Resolver.CreatedZoneFound | s3lify/__init__.py:158-170 | a created zone is found next time, except for a registrable domain ending in '.' |
| Resolver.ZoneFoundStable | s3lify/__init__.py:146-151 | once a zone is found, adding zones does not change which one |
| Resolver.FindCertificate | s3lify/__init__.py:363-367 | the first certificate for the domain; `None` exactly when there is none |
| Resolver.CreatedCertificateFound | s3lify/__init__.py:336-341 | a requested certificate is found next time |
| Resolver.FindDistribution | s3lify/__init__.py:294-301 | the first distribution with an origin on the site's S3 endpoint; `None` exactly when there is none |
| Resolver.CreatedDistributionFound | s3lify/__init__.py:278-284 | a created distribution that serves the endpoint is found next time |
| Resolver.ScanValidations | s3lify/__init__.py:374-381 | the first pending-DNS or issued entry decides: its record, "issued", or a `KeyError` when the record is missing; no such entry gives `None` |
| Resolver.PendingCnameComesFromPendingDns | s3lify/__init__.py:374-379 | a record to publish always comes from an entry that is pending DNS validation |
| Resolver.SyncSettles | s3lify/__init__.py:212-218 | once the registrar holds the zone's servers, the sets are not disjoint, so no second update happens |
| Resolver.TrailingDotsIgnored | s3lify/__init__.py:212-218 | server names that differ only by a trailing dot count as the same |
| Manifest.Decode | s3lify/__init__.py:540 | a read manifest lists at least one key |
| Manifest.ManifestRoundTrip | s3lify/__init__.py:516-543 | reading back a written manifest gives the same keys, in order, when no key holds a comma |
| Manifest.CommaInKeySplits | s3lify/__init__.py:523-540 | a key holding a comma comes back as two keys |
| Manifest.Exclude | s3lify/__init__.py:495-496 | the filter never lengthens the list |
| Manifest.ExcludeMembers | s3lify/__init__.py:495-496 | the filter keeps exactly the keys not excluded |
| Manifest.ExcludeAppend | s3lify/__init__.py:495-496 | filtering distributes over concatenation |
| Manifest.FlattenExcludeEach | s3lify/__init__.py:490-498 | the requests together hold the filtered concatenation of the chunks |
| Manifest.PurgeDeletesExactly | s3lify/__init__.py:484-500 | the requests delete exactly the manifest's non-excluded keys, in order, at most 1000 per request |
| Manifest.PurgeRequestSlice | s3lify/__init__.py:490-496 | request `i` filters the manifest slice `[1000*i, 1000*(i+1))` |
| Manifest.LastNonManifest | s3lify/__init__.py:507-514 | the last listed key other than the manifest's own; `None` exactly when every key is the manifest's |
| Manifest.RebuiltManifestPurge | s3lify/cli.py:187-195 | after the manifest is rebuilt, a deploy's purge deletes at most the one key it names |
| Client.MakeCloudfrontConfig | s3lify/__init__.py:557-567 | the configuration's origin is the site's S3 endpoint, so the distribution serves the site |
| Client.WithObjectTwice | s3lify/__init__.py:509-514 | writing the manifest twice equals the second write |
| Client.PurgeStep | s3lify/__init__.py:490-500 | one more request deletes the union of the keys sent so far |
| Client.ManifestRebuiltStep | s3lify/__init__.py:507-514 | one more listed key either leaves the manifest alone (the manifest's own key) or makes it name that key |
| Client.UpdatedZoneFound | s3lify/__init__.py:146-151 | a batch sent to the zone the lookup finds lands in the zone the next lookup finds |
| Client.ARecordsLand | s3lify/__init__.py:232-269 | after the A-record batch, the zone the site finds aliases the domain (and `www` for an apex domain) to the target |
| Client.CnameLands | s3lify/__init__.py:172-190 | after one CNAME upsert, the zone found for the registrable domain holds that record with TTL 30 |
| Client.SyncIdempotent | s3lify/__init__.py:205-230 | a second registrar sync with the same zone servers changes nothing the first did not |
| Client.S3lify.constructor | s3lify/__init__.py:87-126 | the client holds the site's domain, registrable domain and region |
| Client.S3lify.S3GetBucketStatus | s3lify/__init__.py:466-482 | found exactly for a permitted bucket with a website; "404"/"403" text codes for a missing or forbidden bucket; the number 404 without a website; other errors raise |
| Client.S3lify.SiteExists | s3lify/__init__.py:128-130 | true exactly when the site's bucket exists, is permitted, and has a website configuration |
| Client.S3lify.S3CreateSite | s3lify/__init__.py:387-434 | only the text code "404" creates the public website bucket (and the `www` redirect for an apex domain) and leaves other buckets alone; other misses raise; success means the site exists |
| Client.S3lify.HostedZoneLookup | s3lify/__init__.py:146-151 | the zone lookup gives nothing exactly when no zone's name, trailing dots stripped, is the registrable domain; a zone found is one of the stored zones and carries that name |
| Client.S3lify.EnsuredZoneFound | s3lify/__init__.py:158-170 | after the zone is ensured, the lookup finds the zone returned, unless the registrable domain ends in '.' |
| Client.S3lify.Route53CreateHostedZone | s3lify/__init__.py:158-170 | returns the found zone, or creates exactly one; afterwards the zone is found unless the domain ends in '.' |
| Client.S3lify.Route53SetCname | s3lify/__init__.py:172-190 | upserts one CNAME (TTL 30) in the ensured zone |
| Client.S3lify.Route53GetNsValues | s3lify/__init__.py:192-202 | no zone gives `None` |
| Client.S3lify.Route53domainsUpdateDns | s3lify/__init__.py:205-230 | updates the registrar to the zone's servers exactly when the two server sets share none and no call fails; already in sync exactly when they share one; "InvalidInput" gives the not-registered answer; no zone servers raise; the registrar otherwise stays |
| Client.S3lify.SyncError | s3lify/__init__.py:227-230 | a caught error never reports an update |
| Client.S3lify.Route53UpdateARecords | s3lify/__init__.py:232-269 | ensures the zone, then applies the A-record batch with the alias zone; raises `KeyError` after ensuring the zone when no alias zone exists |
| Client.S3lify.S3UpdateRoute53ARecords | s3lify/__init__.py:462-464 | succeeds exactly for a region in the table, and then the zone the site finds aliases its A records to the regional S3 website endpoint |
| Client.S3lify.CertificateHasStatus | s3lify/__init__.py:356-367 | an ARN exactly when a certificate names the domain, taken from such a certificate; a status exactly when there is an ARN, that of a certificate with this ARN |
| Client.S3lify.AcmGenerateCertificate | s3lify/__init__.py:329-345 | requests a certificate exactly when none exists; the new one is pending validation; afterwards a certificate exists |
| Client.S3lify.AcmGetCertificateCnameConfig | s3lify/__init__.py:369-381 | no certificate gives `None` |
| Client.S3lify.AcmUpdateRoute53CnameRecords | s3lify/__init__.py:347-354 | publishes the validation CNAME exactly when the scan yields a non-empty name and value, after which the site's zone holds it; otherwise zones are unchanged |
| Client.S3lify.CloudfrontGetDistributionId | s3lify/__init__.py:294-301 | the id of the distribution serving the site's S3 endpoint, and none exactly when no distribution does |
| Client.S3lify.CloudfrontCreateDistribution | s3lify/__init__.py:273-284 | creates one distribution exactly when none serves the site and a certificate exists; afterwards one serves the site |
| Client.S3lify.CloudfrontUpdateRoute53ARecords | s3lify/__init__.py:286-292 | with a distribution, the zone the site finds aliases its A records to the distribution's domain in CloudFront's zone; without one nothing changes |
| Client.S3lify.CloudfrontInvalidateObjects | s3lify/__init__.py:312-326 | invalidates "/*" on the site's distribution, or does nothing without one |
| Client.S3lify.S3GetManifest | s3lify/__init__.py:529-543 | a readable manifest gives its stored body split on ','; `[]` exactly when it cannot be read |
| Client.S3lify.S3UpdateManifest | s3lify/__init__.py:516-527 | an empty list writes nothing; otherwise the joined keys are stored and read back as the same keys |
| Client.S3lify.S3CreateManifest | s3lify/__init__.py:502-514 | raises exactly without a bucket; otherwise the manifest ends as rebuilt key by key, naming the last non-manifest key (loop invariant) |
| Client.S3lify.S3PurgeFiles | s3lify/__init__.py:484-500 | sends the filtered chunks of the manifest; the bucket loses exactly those keys (or nothing when deletes fail or exclusions are null) |
| Client.S3lify.S3Upload | s3lify/__init__.py:436-460 | dispatches one upload per file in order, then the manifest lists exactly the uploaded keys |
| Cli.DistributionTier | s3lify/cli.py:86-89 | Route 53 or CloudFront exactly for the exact lower-case names; everything else is S3 only |
| Cli.MixedCaseTierIsS3 | s3lify/cli.py:86-89 | "CloudFront" selects S3 only, since the check comes before lower-casing |
| Cli.UpdateDnsFlag | s3lify/cli.py:103-105 | the registrar sync is off exactly for an explicit `false` |
| Cli.RegionOf | s3lify/cli.py:83 | a region exactly when the entry is given |
| Cli.ExcludeFiles | s3lify/cli.py:193-194 | a missing entry excludes nothing; a null one gives `None` |
| Cli.Connect | s3lify/cli.py:79-84 | the client is built from the configured domain and region |
| Cli.When | s3lify/cli.py:110-158 | a conditional step is in the plan exactly when its condition holds |
| Cli.CertificatePlan | s3lify/cli.py:127-158 | the CloudFront steps happen exactly under their conditions, and rank after the DNS ones |
| Cli.RoutingPlanSteps | s3lify/cli.py:114-165 | which Route 53 and CloudFront steps each tier plans, and none for S3 only |
| Cli.SetupPlanSteps | s3lify/cli.py:110-165 | each `setup` step is planned exactly when its condition holds |
| Cli.CertificatePlanOrdered | s3lify/cli.py:127-158 | the CloudFront steps never repeat and come in the code's order |
| Cli.SetupPlanOrdered | s3lify/cli.py:110-165 | all `setup` steps never repeat and come in the code's order |
| Cli.SecondSetupCreatesNothing | s3lify/cli.py:110-158 | the plan for a site whose bucket exists, whose certificate has a non-empty status and which has a distribution holds no bucket, certificate or distribution creation |
| Cli.Setup | s3lify/cli.py:96-172 | the trace is a prefix of the plan, and the whole plan on success; success leaves the site existing (a public website bucket when setup created it), the A records aliased to the S3 endpoint (Route 53) or to the distribution (CloudFront), and for CloudFront a certificate and a distribution; S3 only touches no zone, registrar, certificate or distribution |
| Cli.SetupSite | s3lify/cli.py:110-112 | creates the site exactly when it was reported missing: then the bucket is a public website with index.html and error.html and the `www` bucket redirects to the domain over https; otherwise the buckets stay |
| Cli.SetupRouting | s3lify/cli.py:114-165 | follows the routing plan; success needs a region in the table and leaves the A records aliased for the tier; S3 only changes nothing |
| Cli.SetupDns | s3lify/cli.py:116-124 | on success the zones get the A-record batch for the S3 endpoint, so the site is aliased to it; with the flag on the registrar becomes the synced registrar, with it off the registrar stays |
| Cli.SetupCloudfront | s3lify/cli.py:127-158 | follows the CloudFront plan, leaving a certificate, a distribution, and the A records aliased to the distribution |
| Cli.SetupCertificate | s3lify/cli.py:129-144 | leaves a certificate; unless it was issued, the site's zone then holds the validation CNAME the scan gives; an issued one leaves zones alone |
| Cli.SetupDistribution | s3lify/cli.py:146-158 | leaves a distribution (creating one only when none serves the site), then the A records alias it |
| Cli.DeployPlan | s3lify/cli.py:187-205 | the manifest first, the upload last, the purge and invalidation exactly when enabled, no step twice |
| Cli.Deploy | s3lify/cli.py:175-213 | changes nothing for a missing site or a null `site_directory`; otherwise follows the plan: the buckets are rebuilt, purged as configured, and given the new manifest; every file is uploaded; the distribution is invalidated exactly when asked and found |
| Cli.DeploySite | s3lify/cli.py:187-206 | follows the deploy plan; the buckets end as prepared and then given the manifest of the files; the invalidation is recorded exactly when asked and a distribution is found; the site's website stays |
| Cli.DeployPublish | s3lify/cli.py:197-205 | invalidates when asked and a distribution exists, uploads every file, and the manifest then lists exactly the uploaded keys |
| Cli.DeployPrepare | s3lify/cli.py:187-195 | the buckets become the manifest rebuilt from the listing, then purged of the keys it lists minus the exclusions when asked (nothing for null exclusions or a failed delete) |
| Cli.DeployPurgesAtMostLastKey | s3lify/cli.py:187-195 | a deploy's purge removes at most the last listed key, since it reads the manifest just rebuilt |
| Cli.RebuiltManifestReadsBack | s3lify/__init__.py:502-514 | the rebuilt manifest reads back as the last listed key alone |

## Left out

- The `init` and `status` commands, the config-file checks, and all
  printing and spinners in `cli.py`. They only produce output.
- `time.sleep`, `uuid` caller references, credentials, and the boto3
  clients' construction. They do not affect the model's state.
- `tldextract`: the registrable domain is an input to the client.
- `mimetypes.guess_type` is a function parameter `guess`, not a model
  of the system table.
- `os.walk`: `deploy` and `S3Upload` take the list of relative paths the
  walk yields. `os.path.relpath` is not modelled beyond taking that path
  as the key.
- The upload threads: each upload request is recorded when it is
  dispatched. Completion, concurrency and failures inside
  `_s3_upload_file` are not modelled.
- `list_objects_v2` returns its first page only. The model lists every
  object of the bucket in one response.
- `_make_cloudfront_config`: only the aliases, the origin and the
  certificate ARN are modelled. The cache and logging settings are
  constants with no bearing on the client's behaviour.
- `cloudfront_get_distribution_domain_name` is used only through
  `CloudfrontGetDistribution`. `setup` only prints its result.
- The `has_hosted_zone`, `has_certificate` and `has_distribution_id`
  properties. No code path of the commands uses them.
- Configuration values of the wrong YAML type are not modelled: flags
  are booleans, and exclusions are lists of strings. Python truthiness is
  modelled only for those types: a flag counts as set only when it is
  `true`.
- The manifest is read as text. The bytes-versus-text mismatch of
  reading a temporary file and splitting it on `","` is not modelled.
- Route53GetNsValues: states only that no zone gives `None`. The
  name-server record lookup is the provider's `NameServerValues` and is
  not specified further.
- AcmGetCertificateCnameConfig: states only that no certificate gives
  `None`. The scan it delegates to is specified by
  `Resolver.ScanValidations`.
- GetBucketWebsite: a bucket without a website configuration gives an
  empty answer, where the service raises a `NoSuchWebsiteConfiguration`
  error. `s3_get_bucket_status` would re-raise that error, since its code
  is neither "403" nor "404". In the model the bucket is reported with
  the number 404, so `deploy` reports the site as not set up instead of
  raising. The branch that returns the number 404 is reachable only
  under this choice.
- Lower: only ASCII capitals are lowered; other Unicode case mappings are
  not modelled.
- The object listing is in storage order, and a new key is appended. S3
  lists keys in key order, and that order decides which key the rebuilt
  manifest names; the proved properties speak of "the last listed key"
  whatever the order.
- The Route 53 guarantees of `setup` (A records and validation CNAME in
  place) are stated for a registrable domain that does not end with a
  dot. For such a domain no lookup finds a zone, so each call creates
  another.
- Setup: the registrar after the sync is stated by `SetupDns` only; the
  contracts of `SetupRouting` and `Setup` do not repeat it.
