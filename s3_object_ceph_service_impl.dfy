/**
 * `S3ObjectCephServiceImpl`: the facade bound to one configured bucket that hands the
 * client's own `S3Object` and `ObjectMetadata` back to its callers and takes keys as
 * lists. Each operation is a `Run` function of the store it starts from; the class's
 * methods perform it on the client, and the lemmas below say what it computes.
 */
module S3ObjectCephService {
  import opened Wrappers
  import opened Utf8
  import opened CephModel
  import opened AmazonS3Store
  import opened BaseCephService
  import opened KeyStreams
  import opened ClientSteps

  /** The keys of a listing, in listing order. */
  function SummaryKeys(summaries: seq<S3ObjectSummary>): seq<string> {
    seq(|summaries|, i requires 0 <= i < |summaries| => summaries[i].key)
  }

  function PutRun(st: Store, bucketName: string, key: string, contentType: Option<string>,
                  userMetadata: map<string, string>, content: seq<Byte>): Run<ObjectMetadata>
  {
    Guarded(st, bucketName, PutStreamStep(st, bucketName, key, contentType, userMetadata, content))
  }

  function GetRun(st: Store, bucketName: string, key: string): Run<Option<S3Object>> {
    Guarded(st, bucketName,
      ProbeThen(st, bucketName, key, None, MapRun(GetObjectStep(st, bucketName, key), (obj: S3Object) => Some(obj))))
  }

  function GetMetadataRun(st: Store, bucketName: string, keys: seq<string>): Run<Option<seq<ObjectMetadata>>> {
    Guarded(st, bucketName,
      ProbeAllThen(st, bucketName, keys, None,
        MapRun(MetadataStep(st, bucketName, keys), (metadata: seq<ObjectMetadata>) => Some(metadata))))
  }

  function DeleteRun(st: Store, bucketName: string, keys: seq<string>): Run<()> {
    Guarded(st, bucketName, DeleteStep(st, bucketName, keys))
  }

  function ExistRun(st: Store, bucketName: string, keys: seq<string>): Run<bool> {
    Guarded(st, bucketName, ExistAllStep(st, bucketName, keys))
  }

  function KeysRun(st: Store, bucketName: string, prefix: string): Run<seq<string>> {
    Guarded(st, bucketName, MapRun(ListStep(st, bucketName, Some(prefix)), SummaryKeys))
  }

  /** The metadata of every key, wrapped in `Optional.of`. */
  method SomeMetadata(s3: AmazonS3, bucketName: string, keys: seq<string>) returns (r: Result<Option<seq<ObjectMetadata>>>)
    modifies s3`log
    ensures r == MapRun(MetadataStep(s3.store, bucketName, keys), (metadata: seq<ObjectMetadata>) => Some(metadata)).result
    ensures s3.log == old(s3.log) + MetadataStep(s3.store, bucketName, keys).calls
  {
    var metadata := MetadataAll(s3, bucketName, keys);
    r := if metadata.Ok? then Ok(Some(metadata.value)) else metadata.PropagateFailure();
  }

  /** The part of `getMetadata` past the guard: the probes, then the metadata. */
  method MetadataIfAll(s3: AmazonS3, bucketName: string, keys: seq<string>) returns (r: Result<Option<seq<ObjectMetadata>>>)
    modifies s3`log
    ensures r == ProbeAllThen(s3.store, bucketName, keys, None,
                   MapRun(MetadataStep(s3.store, bucketName, keys), (metadata: seq<ObjectMetadata>) => Some(metadata))).result
    ensures s3.log == old(s3.log) + ProbeAllThen(s3.store, bucketName, keys, None,
                   MapRun(MetadataStep(s3.store, bucketName, keys), (metadata: seq<ObjectMetadata>) => Some(metadata))).calls
  {
    ghost var probe := ExistAllStep(s3.store, bucketName, keys);
    ghost var present := MapRun(MetadataStep(s3.store, bucketName, keys), (metadata: seq<ObjectMetadata>) => Some(metadata));
    var found := ExistAll(s3, bucketName, keys);
    if found.IsFailure() {
      r := found.PropagateFailure();
    } else if !found.value {
      r := Ok(None);
    } else {
      r := SomeMetadata(s3, bucketName, keys);
      assert s3.log == old(s3.log) + (probe.calls + present.calls);
    }
  }

  /** `getMetadata(keys)` on a given bucket: the guard, then the rest. */
  method GuardedMetadata(s3: AmazonS3, bucketName: string, keys: seq<string>) returns (r: Result<Option<seq<ObjectMetadata>>>)
    modifies s3`log
    ensures r == GetMetadataRun(s3.store, bucketName, keys).result
    ensures s3.log == old(s3.log) + GetMetadataRun(s3.store, bucketName, keys).calls
  {
    ghost var present := ProbeAllThen(s3.store, bucketName, keys, None,
      MapRun(MetadataStep(s3.store, bucketName, keys), (metadata: seq<ObjectMetadata>) => Some(metadata)));
    var guard := GuardBucket(s3, bucketName);
    if guard.IsFailure() {
      r := guard.PropagateFailure();
    } else {
      r := MetadataIfAll(s3, bucketName, keys);
      assert s3.log == old(s3.log) + ([Call.ListBuckets] + present.calls);
    }
  }

  /** `getObjectSummaries().stream().map(getKey).collect(toList())`, one summary at a time. */
  method CollectKeys(summaries: seq<S3ObjectSummary>) returns (keys: seq<string>)
    ensures keys == SummaryKeys(summaries)
  {
    keys := [];
    var i := 0;
    while i < |summaries|
      invariant i <= |summaries| && |keys| == i
      invariant forall j :: 0 <= j < i ==> keys[j] == summaries[j].key
    {
      keys := keys + [summaries[i].key];
      i := i + 1;
    }
  }

  class S3ObjectCephServiceImpl {
    const cephBucketName: string
    const cephAmazonS3: AmazonS3

    constructor (cephBucketName: string, cephAmazonS3: AmazonS3)
      ensures this.cephBucketName == cephBucketName && this.cephAmazonS3 == cephAmazonS3
    {
      this.cephBucketName := cephBucketName;
      this.cephAmazonS3 := cephAmazonS3;
    }

    method Put(key: string, contentType: Option<string>, userMetadata: map<string, string>,
               content: seq<Byte>) returns (r: Result<ObjectMetadata>)
      modifies cephAmazonS3`log, cephAmazonS3`store
      ensures r == PutRun(old(cephAmazonS3.store), cephBucketName, key, contentType, userMetadata, content).result
      ensures cephAmazonS3.log == old(cephAmazonS3.log) + PutRun(old(cephAmazonS3.store), cephBucketName, key, contentType, userMetadata, content).calls
      ensures cephAmazonS3.store == PutRun(old(cephAmazonS3.store), cephBucketName, key, contentType, userMetadata, content).after
    {
      var guard := GuardBucket(cephAmazonS3, cephBucketName);
      if guard.IsFailure() {
        r := guard.PropagateFailure();
      } else {
        r := ClientSteps.PutStream(cephAmazonS3, cephBucketName, key, contentType, userMetadata, content);
      }
    }

    method Get(key: string) returns (r: Result<Option<S3Object>>)
      modifies cephAmazonS3`log
      ensures r == GetRun(cephAmazonS3.store, cephBucketName, key).result
      ensures cephAmazonS3.log == old(cephAmazonS3.log) + GetRun(cephAmazonS3.store, cephBucketName, key).calls
    {
      var bucketFound :- GuardBucket(cephAmazonS3, cephBucketName);
      var found :- Probe(cephAmazonS3, cephBucketName, key);
      if !found {
        return Ok(None);
      }
      var obj :- FetchObject(cephAmazonS3, cephBucketName, key);
      r := Ok(Some(obj));
    }

    method GetMetadata(keys: seq<string>) returns (r: Result<Option<seq<ObjectMetadata>>>)
      modifies cephAmazonS3`log
      ensures r == GetMetadataRun(cephAmazonS3.store, cephBucketName, keys).result
      ensures cephAmazonS3.log == old(cephAmazonS3.log) + GetMetadataRun(cephAmazonS3.store, cephBucketName, keys).calls
    {
      r := GuardedMetadata(cephAmazonS3, cephBucketName, keys);
    }

    method Delete(keys: seq<string>) returns (r: Result<()>)
      modifies cephAmazonS3`log, cephAmazonS3`store
      ensures r == DeleteRun(old(cephAmazonS3.store), cephBucketName, keys).result
      ensures cephAmazonS3.log == old(cephAmazonS3.log) + DeleteRun(old(cephAmazonS3.store), cephBucketName, keys).calls
      ensures cephAmazonS3.store == DeleteRun(old(cephAmazonS3.store), cephBucketName, keys).after
    {
      var bucketFound :- GuardBucket(cephAmazonS3, cephBucketName);
      r := DeleteKeys(cephAmazonS3, cephBucketName, keys);
    }

    method Exist(keys: seq<string>) returns (r: Result<bool>)
      modifies cephAmazonS3`log
      ensures r == ExistRun(cephAmazonS3.store, cephBucketName, keys).result
      ensures cephAmazonS3.log == old(cephAmazonS3.log) + ExistRun(cephAmazonS3.store, cephBucketName, keys).calls
    {
      var bucketFound :- GuardBucket(cephAmazonS3, cephBucketName);
      r := ExistAll(cephAmazonS3, cephBucketName, keys);
    }

    method GetKeys(prefix: string) returns (r: Result<seq<string>>)
      modifies cephAmazonS3`log
      ensures r == KeysRun(cephAmazonS3.store, cephBucketName, prefix).result
      ensures cephAmazonS3.log == old(cephAmazonS3.log) + KeysRun(cephAmazonS3.store, cephBucketName, prefix).calls
    {
      var bucketFound :- GuardBucket(cephAmazonS3, cephBucketName);
      var summaries :- List(cephAmazonS3, cephBucketName, Some(prefix));
      var keys := CollectKeys(summaries);
      r := Ok(keys);
    }
  }

  /**
   * Without faults and with the configured bucket listed, `put` returns the metadata the
   * store kept (the content type, octet-stream when none was given; the user metadata;
   * the length of the content), and `get` then returns the object with that content.
   */
  lemma PutThenGet(st: Store, bucketName: string, key: string, contentType: Option<string>,
                   userMetadata: map<string, string>, content: seq<Byte>)
    requires NoFaults(st) && Listed(st.buckets, bucketName)
    ensures PutRun(st, bucketName, key, contentType, userMetadata, content).result ==
              Ok(ObjectMetadata(if contentType.Some? then contentType else Some(OctetStream), userMetadata, Some(|content|)))
    ensures GetRun(PutRun(st, bucketName, key, contentType, userMetadata, content).after, bucketName, key).result ==
              Ok(Some(S3Object(key, ObjectMetadata(if contentType.Some? then contentType else Some(OctetStream), userMetadata, Some(|content|)), content)))
  {
    var step := PutStreamStep(st, bucketName, key, contentType, userMetadata, content);
    PutStreamReadsBack(st, bucketName, key, contentType, userMetadata, content);
    GuardDecides(st, bucketName, step);
    var obj := StreamObject(key, content, SentMetadata(contentType, userMetadata));
    StoredFind(st, bucketName, obj, bucketName, key);
    GetReturnsStored(step.after, bucketName, key);
  }

  /** Without faults `get` returns the stored object, empty when the key is not stored. */
  lemma GetReturnsStored(st: Store, bucketName: string, key: string)
    requires NoFaults(st) && Listed(st.buckets, bucketName)
    ensures GetRun(st, bucketName, key).result == Ok(Find(st, bucketName, key))
    ensures GetRun(st, bucketName, key).after == st
  {
    var present := MapRun(GetObjectStep(st, bucketName, key), (obj: S3Object) => Some(obj));
    ProbeThenGuards(st, bucketName, key, None, present);
    if Find(st, bucketName, key).Some? {
      GetObjectOfStored(st, bucketName, key);
    }
    GuardDecides(st, bucketName, ProbeThen(st, bucketName, key, None, present));
  }

  /**
   * Without faults `getMetadata(keys)` is empty when some key is not stored, and otherwise
   * the metadata of each key, in the order of the list.
   */
  lemma GetMetadataAnswers(st: Store, bucketName: string, keys: seq<string>)
    requires NoFaults(st) && Listed(st.buckets, bucketName)
    ensures GetMetadataRun(st, bucketName, keys).result.Ok?
    ensures GetMetadataRun(st, bucketName, keys).result.value.Some? <==>
              forall i :: 0 <= i < |keys| ==> Find(st, bucketName, keys[i]).Some?
    ensures GetMetadataRun(st, bucketName, keys).result.value.Some? ==>
              |GetMetadataRun(st, bucketName, keys).result.value.value| == |keys| &&
              forall i :: 0 <= i < |keys| ==>
                GetMetadataRun(st, bucketName, keys).result.value.value[i] == Find(st, bucketName, keys[i]).value.metadata
  {
    var present := MapRun(MetadataStep(st, bucketName, keys), (metadata: seq<ObjectMetadata>) => Some(metadata));
    ExistAllFaultFree(st, bucketName, keys);
    GuardDecides(st, bucketName, ProbeAllThen(st, bucketName, keys, None, present));
    if forall i :: 0 <= i < |keys| ==> Find(st, bucketName, keys[i]).Some? {
      MetadataFaultFree(st, bucketName, keys);
    }
  }

  /**
   * Without faults `delete(keys)` succeeds, and afterwards a key is stored exactly when it
   * was before and is not in the list.
   */
  lemma DeleteRemoves(st: Store, bucketName: string, keys: seq<string>, key: string)
    requires NoFaults(st) && Listed(st.buckets, bucketName)
    ensures DeleteRun(st, bucketName, keys).result == Ok(())
    ensures Find(DeleteRun(st, bucketName, keys).after, bucketName, key).Some? <==>
              key !in keys && Find(st, bucketName, key).Some?
    ensures ExistRun(DeleteRun(st, bucketName, keys).after, bucketName, [key]).result ==
              Ok(key !in keys && Find(st, bucketName, key).Some?)
  {
    DeleteOutcome(st, bucketName, keys);
    GuardDecides(st, bucketName, DeleteStep(st, bucketName, keys));
    var after := Removed(st, bucketName, set k | k in keys);
    RemovedFind(st, bucketName, (set k | k in keys), bucketName, key);
    ExistAnswers(after, bucketName, [key]);
  }

  /** Without faults `exist(keys)` answers whether every key of the list is stored. */
  lemma ExistAnswers(st: Store, bucketName: string, keys: seq<string>)
    requires NoFaults(st) && Listed(st.buckets, bucketName)
    ensures ExistRun(st, bucketName, keys).result.Ok?
    ensures ExistRun(st, bucketName, keys).result.value <==> forall i :: 0 <= i < |keys| ==> Find(st, bucketName, keys[i]).Some?
  {
    ExistAllFaultFree(st, bucketName, keys);
    GuardDecides(st, bucketName, ExistAllStep(st, bucketName, keys));
  }

  /**
   * Without faults `getKeys(prefix)` lists, in listing order, the stored keys that start
   * with the prefix, and only those.
   */
  lemma KeysAnswers(st: Store, bucketName: string, prefix: string, key: string)
    requires NoFaults(st) && Listed(st.buckets, bucketName)
    ensures KeysRun(st, bucketName, prefix).result.Ok?
    ensures key in KeysRun(st, bucketName, prefix).result.value <==> prefix <= key && Find(st, bucketName, key).Some?
    ensures |KeysRun(st, bucketName, prefix).result.value| <= |ObjectsOf(st, bucketName)|
    ensures KeysRun(st, bucketName, prefix).result == Ok(SummaryKeys(ListingOf(ObjectsOf(st, bucketName), Some(prefix))))
  {
    ListOutcome(st, bucketName, Some(prefix));
    GuardDecides(st, bucketName, MapRun(ListStep(st, bucketName, Some(prefix)), SummaryKeys));
    var listing := ListingOf(ObjectsOf(st, bucketName), Some(prefix));
    var keys := SummaryKeys(listing);
    assert KeysRun(st, bucketName, prefix).result.value == keys;
    if key in keys {
      var i :| 0 <= i < |keys| && keys[i] == key;
      assert listing[i].key == key;
    }
    if prefix <= key && Find(st, bucketName, key).Some? {
      assert Matches(Some(prefix), key);
      var i :| 0 <= i < |listing| && listing[i] == S3ObjectSummary(key);
      assert keys[i] == key;
    }
  }

  /*
   * Whatever the faults, an operation's Communication error carries the message of a
   * fault injected on one of the calls it made.
   */

  lemma PutFaultsExplain(st: Store, bucketName: string, key: string, contentType: Option<string>,
                         userMetadata: map<string, string>, content: seq<Byte>)
    ensures FaultsExplain(st, PutRun(st, bucketName, key, contentType, userMetadata, content))
  {
    PutStreamFaultsExplain(st, bucketName, key, contentType, userMetadata, content);
    GuardedFaultsExplain(st, bucketName, PutStreamStep(st, bucketName, key, contentType, userMetadata, content));
  }

  lemma GetFaultsExplain(st: Store, bucketName: string, key: string)
    ensures FaultsExplain(st, GetRun(st, bucketName, key))
  {
    var present := MapRun(GetObjectStep(st, bucketName, key), (obj: S3Object) => Some(obj));
    if Find(st, bucketName, key).Some? {
      GetObjectOfStored(st, bucketName, key);
      MapRunFaultsExplain(st, GetObjectStep(st, bucketName, key), (obj: S3Object) => Some(obj));
    }
    ProbeThenFaultsExplain(st, bucketName, key, None, present);
    GuardedFaultsExplain(st, bucketName, ProbeThen(st, bucketName, key, None, present));
  }

  lemma GetMetadataFaultsExplain(st: Store, bucketName: string, keys: seq<string>)
    ensures FaultsExplain(st, GetMetadataRun(st, bucketName, keys))
  {
    var present := MapRun(MetadataStep(st, bucketName, keys), (metadata: seq<ObjectMetadata>) => Some(metadata));
    if forall i :: 0 <= i < |keys| ==> Find(st, bucketName, keys[i]).Some? {
      MetadataFaultsExplain(st, bucketName, keys);
      MapRunFaultsExplain(st, MetadataStep(st, bucketName, keys), (metadata: seq<ObjectMetadata>) => Some(metadata));
    }
    ProbeAllThenFaultsExplain(st, bucketName, keys, None, present);
    GuardedFaultsExplain(st, bucketName, ProbeAllThen(st, bucketName, keys, None, present));
  }

  /**
   * A failing `delete` is explained by a fault on one of its calls and removes
   * nothing; a succeeding one leaves none of the listed keys in the bucket.
   */
  lemma DeleteFaultsExplain(st: Store, bucketName: string, keys: seq<string>)
    ensures FaultsExplain(st, DeleteRun(st, bucketName, keys))
    ensures !DeleteRun(st, bucketName, keys).result.Ok? ==> DeleteRun(st, bucketName, keys).after == st
    ensures DeleteRun(st, bucketName, keys).result.Ok? ==>
              forall k :: k in keys ==> Find(DeleteRun(st, bucketName, keys).after, bucketName, k).None?
  {
    DeleteOutcome(st, bucketName, keys);
    GuardedFaultsExplain(st, bucketName, DeleteStep(st, bucketName, keys));
    var run := DeleteRun(st, bucketName, keys);
    if run.result.Ok? {
      forall k | k in keys
        ensures Find(run.after, bucketName, k).None?
      {
        RemovedFind(st, bucketName, (set k' | k' in keys), bucketName, k);
      }
    }
  }

  lemma ExistFaultsExplain(st: Store, bucketName: string, keys: seq<string>)
    ensures FaultsExplain(st, ExistRun(st, bucketName, keys))
  {
    ExistAllFaultsExplain(st, bucketName, keys);
    GuardedFaultsExplain(st, bucketName, ExistAllStep(st, bucketName, keys));
  }

  lemma KeysFaultsExplain(st: Store, bucketName: string, prefix: string)
    ensures FaultsExplain(st, KeysRun(st, bucketName, prefix))
  {
    ListOutcome(st, bucketName, Some(prefix));
    MapRunFaultsExplain(st, ListStep(st, bucketName, Some(prefix)), SummaryKeys);
    GuardedFaultsExplain(st, bucketName, MapRun(ListStep(st, bucketName, Some(prefix)), SummaryKeys));
  }
}
