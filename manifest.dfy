/**
 * The manifest: the list of object keys of the last upload, kept as one
 * comma-joined object under a reserved key in the site's bucket, and the
 * delete requests a purge derives from it.
 */
module Manifest {
  import opened Base
  import opened Text
  import opened Chunks

  /** The reserved key of the manifest object. */
  const ManifestFile: string := ".s3lify.manifest"

  /** The most keys one `delete_objects` request carries. */
  const DeleteBatch: int := 1000

  /** The manifest's body for a list of keys: `",".join(keys)`. */
  function Encode(keys: seq<string>): string
  {
    Join(keys, ',')
  }

  /** The keys a manifest body lists: `body.split(",")`. */
  function Decode(body: string): (keys: seq<string>)
    ensures |keys| >= 1
  {
    Split(body, ',')
  }

  /** Reading back a written manifest gives the same keys, in order, when no key holds a comma. */
  lemma ManifestRoundTrip(keys: seq<string>)
    requires |keys| >= 1
    requires forall i :: 0 <= i < |keys| ==> ',' !in keys[i]
    ensures Decode(Encode(keys)) == keys
  {
    SplitJoin(keys, ',');
  }

  /** A key holding a comma comes back as two keys: the format has no escaping. */
  lemma CommaInKeySplits()
    ensures Decode(Encode(["a,b"])) == ["a", "b"]
  {
    assert Encode(["a,b"]) == "a,b";
    SplitPieceFirst("a", "b", ',');
    SplitPieceOnly("b", ',');
    assert "a" + [','] + "b" == "a,b";
  }

  /** `[f for f in keys if f not in exclude]`. */
  function Exclude(keys: seq<string>, exclude: seq<string>): (r: seq<string>)
    ensures |r| <= |keys|
  {
    if |keys| == 0 then []
    else (if keys[0] in exclude then [] else [keys[0]]) + Exclude(keys[1..], exclude)
  }

  /** The filter keeps exactly the keys that are not excluded. */
  lemma {:induction false} ExcludeMembers(keys: seq<string>, exclude: seq<string>)
    ensures forall k :: k in Exclude(keys, exclude) <==> k in keys && k !in exclude
    decreases |keys|
  {
    if |keys| > 0 {
      ExcludeMembers(keys[1..], exclude);
      assert keys == [keys[0]] + keys[1..];
    }
  }

  lemma {:induction false} ExcludeAppend(a: seq<string>, b: seq<string>, exclude: seq<string>)
    ensures Exclude(a + b, exclude) == Exclude(a, exclude) + Exclude(b, exclude)
  {
    if |a| > 0 {
      var head := if a[0] in exclude then [] else [a[0]];
      assert (a + b)[0] == a[0];
      assert (a + b)[1..] == a[1..] + b;
      ExcludeAppend(a[1..], b, exclude);
      calc {
        Exclude(a + b, exclude);
        head + Exclude(a[1..] + b, exclude);
        head + (Exclude(a[1..], exclude) + Exclude(b, exclude));
        (head + Exclude(a[1..], exclude)) + Exclude(b, exclude);
      }
    } else {
      assert a + b == b;
    }
  }

  /** One request per chunk: the chunk's keys that are not excluded. */
  function ExcludeEach(chunks: seq<seq<string>>, exclude: seq<string>): (reqs: seq<seq<string>>)
    ensures |reqs| == |chunks|
    ensures forall i :: 0 <= i < |chunks| ==> reqs[i] == Exclude(chunks[i], exclude)
  {
    seq(|chunks|, i requires 0 <= i < |chunks| => Exclude(chunks[i], exclude))
  }

  lemma {:induction false} FlattenExcludeEach(chunks: seq<seq<string>>, exclude: seq<string>)
    ensures Flatten(ExcludeEach(chunks, exclude)) == Exclude(Flatten(chunks), exclude)
    decreases |chunks|
  {
    if |chunks| > 0 {
      FlattenExcludeEach(chunks[1..], exclude);
      assert ExcludeEach(chunks, exclude)[1..] == ExcludeEach(chunks[1..], exclude);
      ExcludeAppend(chunks[0], Flatten(chunks[1..]), exclude);
    }
  }

  /** The delete requests `s3_purge_files` sends for a manifest. */
  function PurgeRequests(manifest: seq<string>, exclude: seq<string>): seq<seq<string>>
  {
    ExcludeEach(ChunkList(manifest, DeleteBatch), exclude)
  }

  /**
   * The requests delete exactly the manifest's keys that are not excluded,
   * in manifest order, and none holds more than 1000 keys.
   */
  lemma PurgeDeletesExactly(manifest: seq<string>, exclude: seq<string>)
    ensures Flatten(PurgeRequests(manifest, exclude)) == Exclude(manifest, exclude)
    ensures forall i :: 0 <= i < |PurgeRequests(manifest, exclude)| ==> |PurgeRequests(manifest, exclude)[i]| <= 1000
  {
    FlattenExcludeEach(ChunkList(manifest, DeleteBatch), exclude);
    ChunksConcatenate(manifest, DeleteBatch);
  }

  /** Request `i` comes from the `i`-th consecutive run of 1000 manifest keys. */
  lemma PurgeRequestSlice(manifest: seq<string>, exclude: seq<string>, i: nat)
    requires i < |PurgeRequests(manifest, exclude)|
    ensures i * 1000 < |manifest|
    ensures PurgeRequests(manifest, exclude)[i] == Exclude(manifest[i * 1000 .. Min((i + 1) * 1000, |manifest|)], exclude)
  {
    ChunkIsSlice(manifest, DeleteBatch, i);
  }

  /**
   * The last listed key that is not the manifest itself: what
   * `s3_create_manifest` leaves in the manifest, since it starts a new
   * one-key list for every listed key.
   */
  function LastNonManifest(keys: seq<string>): (r: Option<string>)
    ensures r.None? <==> forall i :: 0 <= i < |keys| ==> keys[i] == ManifestFile
    ensures r.Some? ==> r.value != ManifestFile
    ensures r.Some? ==>
      exists i :: 0 <= i < |keys| && keys[i] == r.value
        && forall j :: i < j < |keys| ==> keys[j] == ManifestFile
  {
    if |keys| == 0 then None
    else if keys[|keys| - 1] != ManifestFile then Some(keys[|keys| - 1])
    else LastNonManifest(keys[..|keys| - 1])
  }

  /**
   * A deploy purges right after rebuilding the manifest, so its purge sees
   * a one-key manifest: it deletes at most that key.
   */
  lemma RebuiltManifestPurge(key: string, exclude: seq<string>)
    requires ',' !in key
    ensures Flatten(PurgeRequests(Decode(Encode([key])), exclude)) == if key in exclude then [] else [key]
  {
    ManifestRoundTrip([key]);
    PurgeDeletesExactly([key], exclude);
    assert Exclude([key][1..], exclude) == [];
  }
}
