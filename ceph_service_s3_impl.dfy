/**
 * `CephServiceS3Impl`: the facade that takes the bucket with every call, converts the
 * client's metadata to `CephObjectMetadata` and returns key sets as sets. Each
 * operation is a `Run` function of the store it starts from; the class's methods
 * perform it on the client, and the lemmas below say what it computes.
 */
module CephServiceS3 {
  import opened Wrappers
  import opened Utf8
  import opened CephModel
  import opened AmazonS3Store
  import opened BaseCephService
  import opened KeyStreams
  import opened ClientSteps

  /** `toCephObjectMetadata`: content type and user metadata as they are, the length 0 when unset. */
  function ToCephObjectMetadata(metadata: ObjectMetadata): CephObjectMetadata {
    CephObjectMetadata(metadata.contentType, metadata.userMetadata, ContentLengthOf(metadata))
  }

  /** `toCephObjectMetadataList`: each entry converted, in order. */
  function ToCephObjectMetadataList(metadata: seq<ObjectMetadata>): seq<CephObjectMetadata> {
    seq(|metadata|, i requires 0 <= i < |metadata| => ToCephObjectMetadata(metadata[i]))
  }

  /** `tpCephObject`: the converted metadata and the content. */
  function ToCephObject(obj: S3Object): CephObject {
    CephObject(ToCephObjectMetadata(obj.metadata), obj.content)
  }

  /** The keys of a listing, collected into a set. */
  function KeySet(summaries: seq<S3ObjectSummary>): set<string> {
    set s | s in summaries :: s.key
  }

  function GetRun(st: Store, bucketName: string, key: string): Run<Option<CephObject>> {
    Guarded(st, bucketName,
      ProbeThen(st, bucketName, key, None, MapRun(GetObjectStep(st, bucketName, key), (obj: S3Object) => Some(ToCephObject(obj)))))
  }

  function GetAsStringRun(st: Store, bucketName: string, key: string): Run<Option<string>> {
    Guarded(st, bucketName,
      ProbeThen(st, bucketName, key, None, MapRun(GetObjectAsStringStep(st, bucketName, key), (text: string) => Some(text))))
  }

  function PutRun(st: Store, bucketName: string, key: string, content: string): Run<()> {
    Guarded(st, bucketName, PutStringStep(st, bucketName, key, content))
  }

  function PutStreamRun(st: Store, bucketName: string, key: string, contentType: Option<string>,
                        userMetadata: map<string, string>, content: seq<Byte>): Run<CephObjectMetadata>
  {
    Guarded(st, bucketName, MapRun(PutStreamStep(st, bucketName, key, contentType, userMetadata, content), ToCephObjectMetadata))
  }

  /** `delete(bucket, keys)`, the set visited in `order`. */
  function DeleteRun(st: Store, bucketName: string, order: seq<string>): Run<()> {
    Guarded(st, bucketName, DeleteStep(st, bucketName, order))
  }

  /** `exist(bucket, keys)`, the set visited in `order`. */
  function ExistAllRun(st: Store, bucketName: string, order: seq<string>): Run<bool> {
    Guarded(st, bucketName, ExistAllStep(st, bucketName, order))
  }

  function ExistRun(st: Store, bucketName: string, key: string): Run<bool> {
    Guarded(st, bucketName, ProbeStep(st, bucketName, key))
  }

  /** `getKeys(bucket, prefix)`, or `getKeys(bucket)` when there is no prefix. */
  function KeysRun(st: Store, bucketName: string, prefix: Option<string>): Run<set<string>> {
    Guarded(st, bucketName, MapRun(ListStep(st, bucketName, prefix), KeySet))
  }

  /** `getMetadata(bucket, keys)`, the set visited in `order`. */
  function GetMetadataRun(st: Store, bucketName: string, order: seq<string>): Run<seq<CephObjectMetadata>> {
    Guarded(st, bucketName,
      ProbeAllThen(st, bucketName, order, [], MapRun(MetadataStep(st, bucketName, order), ToCephObjectMetadataList)))
  }

  /** The stream stored, its metadata read back and converted. */
  method PutStreamConverted(s3: AmazonS3, bucketName: string, key: string, contentType: Option<string>,
                            userMetadata: map<string, string>, content: seq<Byte>) returns (r: Result<CephObjectMetadata>)
    modifies s3`log, s3`store
    ensures r == MapRun(PutStreamStep(old(s3.store), bucketName, key, contentType, userMetadata, content), ToCephObjectMetadata).result
    ensures s3.log == old(s3.log) + PutStreamStep(old(s3.store), bucketName, key, contentType, userMetadata, content).calls
    ensures s3.store == PutStreamStep(old(s3.store), bucketName, key, contentType, userMetadata, content).after
  {
    var metadata := ClientSteps.PutStream(s3, bucketName, key, contentType, userMetadata, content);
    r := if metadata.Ok? then Ok(ToCephObjectMetadata(metadata.value)) else metadata.PropagateFailure();
  }

  /** The metadata of every key, fetched and converted. */
  method ConvertedMetadata(s3: AmazonS3, bucketName: string, order: seq<string>) returns (r: Result<seq<CephObjectMetadata>>)
    modifies s3`log
    ensures r == MapRun(MetadataStep(s3.store, bucketName, order), ToCephObjectMetadataList).result
    ensures s3.log == old(s3.log) + MetadataStep(s3.store, bucketName, order).calls
  {
    var metadata := MetadataAll(s3, bucketName, order);
    r := if metadata.Ok? then Ok(ToCephObjectMetadataList(metadata.value)) else metadata.PropagateFailure();
  }

  /** The part of `getMetadata` past the guard: the probes, then the metadata, converted. */
  method MetadataOfAll(s3: AmazonS3, bucketName: string, order: seq<string>) returns (r: Result<seq<CephObjectMetadata>>)
    modifies s3`log
    ensures r == ProbeAllThen(s3.store, bucketName, order, [], MapRun(MetadataStep(s3.store, bucketName, order), ToCephObjectMetadataList)).result
    ensures s3.log == old(s3.log) + ProbeAllThen(s3.store, bucketName, order, [], MapRun(MetadataStep(s3.store, bucketName, order), ToCephObjectMetadataList)).calls
  {
    ghost var probe := ExistAllStep(s3.store, bucketName, order);
    ghost var present := MapRun(MetadataStep(s3.store, bucketName, order), ToCephObjectMetadataList);
    var found := ExistAll(s3, bucketName, order);
    if found.IsFailure() {
      r := found.PropagateFailure();
    } else if !found.value {
      r := Ok([]);
    } else {
      r := ConvertedMetadata(s3, bucketName, order);
      assert s3.log == old(s3.log) + (probe.calls + present.calls);
    }
  }

  /** `getMetadata` once the set has been put in `order`: the guard, then the rest. */
  method GuardedMetadata(s3: AmazonS3, bucketName: string, order: seq<string>) returns (r: Result<seq<CephObjectMetadata>>)
    modifies s3`log
    ensures r == GetMetadataRun(s3.store, bucketName, order).result
    ensures s3.log == old(s3.log) + GetMetadataRun(s3.store, bucketName, order).calls
  {
    ghost var present := ProbeAllThen(s3.store, bucketName, order, [],
      MapRun(MetadataStep(s3.store, bucketName, order), ToCephObjectMetadataList));
    var guard := GuardBucket(s3, bucketName);
    if guard.IsFailure() {
      r := guard.PropagateFailure();
    } else {
      r := MetadataOfAll(s3, bucketName, order);
      assert s3.log == old(s3.log) + ([Call.ListBuckets] + present.calls);
    }
  }

  class CephServiceS3Impl {
    const s3: AmazonS3

    constructor (amazonS3: AmazonS3)
      ensures s3 == amazonS3
    {
      s3 := amazonS3;
    }

    method Get(cephBucketName: string, key: string) returns (r: Result<Option<CephObject>>)
      modifies s3`log
      ensures r == GetRun(s3.store, cephBucketName, key).result
      ensures s3.log == old(s3.log) + GetRun(s3.store, cephBucketName, key).calls
    {
      var bucketFound :- GuardBucket(s3, cephBucketName);
      var found :- Probe(s3, cephBucketName, key);
      if !found {
        return Ok(None);
      }
      var obj :- FetchObject(s3, cephBucketName, key);
      r := Ok(Some(ToCephObject(obj)));
    }

    method GetAsString(cephBucketName: string, key: string) returns (r: Result<Option<string>>)
      modifies s3`log
      ensures r == GetAsStringRun(s3.store, cephBucketName, key).result
      ensures s3.log == old(s3.log) + GetAsStringRun(s3.store, cephBucketName, key).calls
    {
      var bucketFound :- GuardBucket(s3, cephBucketName);
      var found :- Probe(s3, cephBucketName, key);
      if !found {
        return Ok(None);
      }
      var text :- FetchObjectAsString(s3, cephBucketName, key);
      r := Ok(Some(text));
    }

    method Put(cephBucketName: string, key: string, content: string) returns (r: Result<()>)
      modifies s3`log, s3`store
      ensures r == PutRun(old(s3.store), cephBucketName, key, content).result
      ensures s3.log == old(s3.log) + PutRun(old(s3.store), cephBucketName, key, content).calls
      ensures s3.store == PutRun(old(s3.store), cephBucketName, key, content).after
    {
      var bucketFound :- GuardBucket(s3, cephBucketName);
      r := PutString(s3, cephBucketName, key, content);
    }

    method PutStream(cephBucketName: string, key: string, contentType: Option<string>,
                     userMetadata: map<string, string>, content: seq<Byte>) returns (r: Result<CephObjectMetadata>)
      modifies s3`log, s3`store
      ensures r == PutStreamRun(old(s3.store), cephBucketName, key, contentType, userMetadata, content).result
      ensures s3.log == old(s3.log) + PutStreamRun(old(s3.store), cephBucketName, key, contentType, userMetadata, content).calls
      ensures s3.store == PutStreamRun(old(s3.store), cephBucketName, key, contentType, userMetadata, content).after
    {
      var guard := GuardBucket(s3, cephBucketName);
      if guard.IsFailure() {
        r := guard.PropagateFailure();
      } else {
        ghost var body := MapRun(PutStreamStep(s3.store, cephBucketName, key, contentType, userMetadata, content), ToCephObjectMetadata);
        r := PutStreamConverted(s3, cephBucketName, key, contentType, userMetadata, content);
        assert s3.log == old(s3.log) + ([Call.ListBuckets] + body.calls);
      }
    }

    /** `order` is the order in which the set was visited to build the request. */
    method Delete(cephBucketName: string, keys: set<string>) returns (r: Result<()>, ghost order: seq<string>)
      modifies s3`log, s3`store
      ensures IsEnumeration(order, keys)
      ensures r == DeleteRun(old(s3.store), cephBucketName, order).result
      ensures s3.log == old(s3.log) + DeleteRun(old(s3.store), cephBucketName, order).calls
      ensures s3.store == DeleteRun(old(s3.store), cephBucketName, order).after
    {
      var visit := Enumerate(keys);
      order := visit;
      var bucketFound :- GuardBucket(s3, cephBucketName);
      r := DeleteKeys(s3, cephBucketName, visit);
    }

    /** `order` is the order in which the stream visited the set. */
    method ExistAll(cephBucketName: string, keys: set<string>) returns (r: Result<bool>, ghost order: seq<string>)
      modifies s3`log
      ensures IsEnumeration(order, keys)
      ensures r == ExistAllRun(s3.store, cephBucketName, order).result
      ensures s3.log == old(s3.log) + ExistAllRun(s3.store, cephBucketName, order).calls
    {
      var visit := Enumerate(keys);
      order := visit;
      var bucketFound :- GuardBucket(s3, cephBucketName);
      var all := ProbeAll(s3, cephBucketName, visit);
      r := Execute(all);
    }

    method Exist(cephBucketName: string, key: string) returns (r: Result<bool>)
      modifies s3`log
      ensures r == ExistRun(s3.store, cephBucketName, key).result
      ensures s3.log == old(s3.log) + ExistRun(s3.store, cephBucketName, key).calls
    {
      var bucketFound :- GuardBucket(s3, cephBucketName);
      r := Probe(s3, cephBucketName, key);
    }

    method GetKeys(cephBucketName: string, prefix: string) returns (r: Result<set<string>>)
      modifies s3`log
      ensures r == KeysRun(s3.store, cephBucketName, Some(prefix)).result
      ensures s3.log == old(s3.log) + KeysRun(s3.store, cephBucketName, Some(prefix)).calls
    {
      var bucketFound :- GuardBucket(s3, cephBucketName);
      var summaries :- List(s3, cephBucketName, Some(prefix));
      r := Ok(KeySet(summaries));
    }

    method GetAllKeys(cephBucketName: string) returns (r: Result<set<string>>)
      modifies s3`log
      ensures r == KeysRun(s3.store, cephBucketName, None).result
      ensures s3.log == old(s3.log) + KeysRun(s3.store, cephBucketName, None).calls
    {
      var bucketFound :- GuardBucket(s3, cephBucketName);
      var summaries :- List(s3, cephBucketName, None);
      r := Ok(KeySet(summaries));
    }

    /** `order` is the order in which both streams visited the set. */
    method GetMetadata(cephBucketName: string, keys: set<string>) returns (r: Result<seq<CephObjectMetadata>>, ghost order: seq<string>)
      modifies s3`log
      ensures IsEnumeration(order, keys)
      ensures r == GetMetadataRun(s3.store, cephBucketName, order).result
      ensures s3.log == old(s3.log) + GetMetadataRun(s3.store, cephBucketName, order).calls
    {
      var visit := Enumerate(keys);
      order := visit;
      r := GuardedMetadata(s3, cephBucketName, visit);
    }
  }

  /**
   * Without faults and with the bucket listed, `get` returns the stored object, converted,
   * and empty when the key is not stored; it changes nothing.
   */
  lemma GetReturnsStored(st: Store, bucketName: string, key: string)
    requires NoFaults(st) && Listed(st.buckets, bucketName)
    ensures GetRun(st, bucketName, key).result ==
              Ok(if Find(st, bucketName, key).Some? then Some(ToCephObject(Find(st, bucketName, key).value)) else None)
    ensures GetRun(st, bucketName, key).after == st
  {
    var present := MapRun(GetObjectStep(st, bucketName, key), (obj: S3Object) => Some(ToCephObject(obj)));
    ProbeThenGuards(st, bucketName, key, None, present);
    if Find(st, bucketName, key).Some? {
      GetObjectOfStored(st, bucketName, key);
    }
    GuardDecides(st, bucketName, ProbeThen(st, bucketName, key, None, present));
  }

  /** The same for `getAsString`: the stored bytes decoded as UTF-8. */
  lemma GetAsStringReturnsText(st: Store, bucketName: string, key: string)
    requires NoFaults(st) && Listed(st.buckets, bucketName)
    ensures GetAsStringRun(st, bucketName, key).result ==
              Ok(if Find(st, bucketName, key).Some? then Some(Decode(Find(st, bucketName, key).value.content)) else None)
    ensures GetAsStringRun(st, bucketName, key).after == st
  {
    var present := MapRun(GetObjectAsStringStep(st, bucketName, key), (text: string) => Some(text));
    ProbeThenGuards(st, bucketName, key, None, present);
    if Find(st, bucketName, key).Some? {
      GetObjectOfStored(st, bucketName, key);
    }
    GuardDecides(st, bucketName, ProbeThen(st, bucketName, key, None, present));
  }

  /** `put(bucket, key, text)` then `getAsString(bucket, key)` gives the text back. */
  lemma PutThenGetAsString(st: Store, bucketName: string, key: string, text: string)
    requires NoFaults(st) && Listed(st.buckets, bucketName)
    ensures PutRun(st, bucketName, key, text).result == Ok(())
    ensures GetAsStringRun(PutRun(st, bucketName, key, text).after, bucketName, key).result == Ok(Some(text))
  {
    PutStringOutcome(st, bucketName, key, text);
    GuardDecides(st, bucketName, PutStringStep(st, bucketName, key, text));
    var after := Stored(st, bucketName, StringObject(key, text));
    assert PutRun(st, bucketName, key, text).after == after;
    StoredFind(st, bucketName, StringObject(key, text), bucketName, key);
    GetAsStringReturnsText(after, bucketName, key);
    DecodeEncode(text);
  }

  /**
   * A stream put returns the metadata the store kept (the content type, octet-stream when
   * none was given; the user metadata; the length of the content), and `get` then returns
   * that metadata with the content.
   */
  lemma PutStreamThenGet(st: Store, bucketName: string, key: string, contentType: Option<string>,
                         userMetadata: map<string, string>, content: seq<Byte>)
    requires NoFaults(st) && Listed(st.buckets, bucketName)
    ensures PutStreamRun(st, bucketName, key, contentType, userMetadata, content).result ==
              Ok(CephObjectMetadata(if contentType.Some? then contentType else Some(OctetStream), userMetadata, |content|))
    ensures GetRun(PutStreamRun(st, bucketName, key, contentType, userMetadata, content).after, bucketName, key).result ==
              Ok(Some(CephObject(CephObjectMetadata(if contentType.Some? then contentType else Some(OctetStream), userMetadata, |content|), content)))
  {
    var step := PutStreamStep(st, bucketName, key, contentType, userMetadata, content);
    PutStreamReadsBack(st, bucketName, key, contentType, userMetadata, content);
    GuardDecides(st, bucketName, MapRun(step, ToCephObjectMetadata));
    var obj := StreamObject(key, content, SentMetadata(contentType, userMetadata));
    StoredFind(st, bucketName, obj, bucketName, key);
    GetReturnsStored(step.after, bucketName, key);
  }

  /**
   * Without faults `delete` succeeds, and afterwards a key exists exactly when it existed
   * before and was not among the deleted ones.
   */
  lemma DeleteRemoves(st: Store, bucketName: string, order: seq<string>, key: string)
    requires NoFaults(st) && Listed(st.buckets, bucketName)
    ensures DeleteRun(st, bucketName, order).result == Ok(())
    ensures ExistRun(DeleteRun(st, bucketName, order).after, bucketName, key).result ==
              Ok(key !in order && Find(st, bucketName, key).Some?)
  {
    DeleteOutcome(st, bucketName, order);
    GuardDecides(st, bucketName, DeleteStep(st, bucketName, order));
    var after := Removed(st, bucketName, set k | k in order);
    RemovedFind(st, bucketName, (set k | k in order), bucketName, key);
    ExistAnswers(after, bucketName, key);
  }

  /** Without faults `exist(bucket, key)` answers whether the key is stored. */
  lemma ExistAnswers(st: Store, bucketName: string, key: string)
    requires NoFaults(st) && Listed(st.buckets, bucketName)
    ensures ExistRun(st, bucketName, key).result == Ok(Find(st, bucketName, key).Some?)
  {
    ProbeFaultFree(st, bucketName, key);
    GuardDecides(st, bucketName, ProbeStep(st, bucketName, key));
  }

  /** Without faults `exist(bucket, keys)` answers whether every key of the set is stored. */
  lemma ExistAllAnswers(st: Store, bucketName: string, keys: set<string>, order: seq<string>)
    requires NoFaults(st) && Listed(st.buckets, bucketName)
    requires IsEnumeration(order, keys)
    ensures ExistAllRun(st, bucketName, order).result.Ok?
    ensures ExistAllRun(st, bucketName, order).result.value <==> forall k :: k in keys ==> Find(st, bucketName, k).Some?
  {
    ExistAllFaultFree(st, bucketName, order);
    GuardDecides(st, bucketName, ExistAllStep(st, bucketName, order));
    if forall i :: 0 <= i < |order| ==> Find(st, bucketName, order[i]).Some? {
      forall k | k in keys ensures Find(st, bucketName, k).Some? {
        var i :| 0 <= i < |order| && order[i] == k;
      }
    }
  }

  /**
   * Without faults `getKeys` returns the set of the stored keys that start with the
   * prefix (every stored key when there is none).
   */
  lemma KeysAnswers(st: Store, bucketName: string, prefix: Option<string>, key: string)
    requires NoFaults(st) && Listed(st.buckets, bucketName)
    ensures KeysRun(st, bucketName, prefix).result.Ok?
    ensures key in KeysRun(st, bucketName, prefix).result.value <==> Matches(prefix, key) && Find(st, bucketName, key).Some?
  {
    ListOutcome(st, bucketName, prefix);
    GuardDecides(st, bucketName, MapRun(ListStep(st, bucketName, prefix), KeySet));
    var listing := ListingOf(ObjectsOf(st, bucketName), prefix);
    assert KeysRun(st, bucketName, prefix).result.value == KeySet(listing);
    if key in KeySet(listing) {
      var s :| s in listing && s.key == key;
      var i :| 0 <= i < |listing| && listing[i] == s;
    }
    if Matches(prefix, key) && Find(st, bucketName, key).Some? {
      assert S3ObjectSummary(key) in listing;
    }
  }

  /**
   * Without faults `getMetadata` returns, when every key of the set is stored, the
   * converted metadata of each in the order the set was visited, and otherwise nothing.
   */
  lemma GetMetadataAnswers(st: Store, bucketName: string, keys: set<string>, order: seq<string>)
    requires NoFaults(st) && Listed(st.buckets, bucketName)
    requires IsEnumeration(order, keys)
    ensures GetMetadataRun(st, bucketName, order).result.Ok?
    ensures (exists k :: k in keys && Find(st, bucketName, k).None?) ==> GetMetadataRun(st, bucketName, order).result.value == []
    ensures (forall k :: k in keys ==> Find(st, bucketName, k).Some?) ==>
              |GetMetadataRun(st, bucketName, order).result.value| == |order| &&
              forall i :: 0 <= i < |order| ==>
                GetMetadataRun(st, bucketName, order).result.value[i] == ToCephObjectMetadata(Find(st, bucketName, order[i]).value.metadata)
  {
    var present := MapRun(MetadataStep(st, bucketName, order), ToCephObjectMetadataList);
    ExistAllFaultFree(st, bucketName, order);
    GuardDecides(st, bucketName, ProbeAllThen(st, bucketName, order, [], present));
    if forall k :: k in keys ==> Find(st, bucketName, k).Some? {
      assert forall i :: 0 <= i < |order| ==> Find(st, bucketName, order[i]).Some?;
      MetadataFaultFree(st, bucketName, order);
    } else {
      var k :| k in keys && Find(st, bucketName, k).None?;
      var i :| 0 <= i < |order| && order[i] == k;
    }
  }

  /*
   * Whatever the faults, an operation's Communication error carries the message of a
   * fault injected on one of the calls it made: a missing key is answered, never thrown.
   */

  lemma GetFaultsExplain(st: Store, bucketName: string, key: string)
    ensures FaultsExplain(st, GetRun(st, bucketName, key))
  {
    var present := MapRun(GetObjectStep(st, bucketName, key), (obj: S3Object) => Some(ToCephObject(obj)));
    if Find(st, bucketName, key).Some? {
      GetObjectOfStored(st, bucketName, key);
      MapRunFaultsExplain(st, GetObjectStep(st, bucketName, key), (obj: S3Object) => Some(ToCephObject(obj)));
    }
    ProbeThenFaultsExplain(st, bucketName, key, None, present);
    GuardedFaultsExplain(st, bucketName, ProbeThen(st, bucketName, key, None, present));
  }

  lemma GetAsStringFaultsExplain(st: Store, bucketName: string, key: string)
    ensures FaultsExplain(st, GetAsStringRun(st, bucketName, key))
  {
    var present := MapRun(GetObjectAsStringStep(st, bucketName, key), (text: string) => Some(text));
    if Find(st, bucketName, key).Some? {
      GetObjectOfStored(st, bucketName, key);
      MapRunFaultsExplain(st, GetObjectAsStringStep(st, bucketName, key), (text: string) => Some(text));
    }
    ProbeThenFaultsExplain(st, bucketName, key, None, present);
    GuardedFaultsExplain(st, bucketName, ProbeThen(st, bucketName, key, None, present));
  }

  lemma PutFaultsExplain(st: Store, bucketName: string, key: string, content: string)
    ensures FaultsExplain(st, PutRun(st, bucketName, key, content))
  {
    PutStringOutcome(st, bucketName, key, content);
    GuardedFaultsExplain(st, bucketName, PutStringStep(st, bucketName, key, content));
  }

  lemma PutStreamFaultsExplain(st: Store, bucketName: string, key: string, contentType: Option<string>,
                                userMetadata: map<string, string>, content: seq<Byte>)
    ensures FaultsExplain(st, PutStreamRun(st, bucketName, key, contentType, userMetadata, content))
  {
    var step := PutStreamStep(st, bucketName, key, contentType, userMetadata, content);
    ClientSteps.PutStreamFaultsExplain(st, bucketName, key, contentType, userMetadata, content);
    MapRunFaultsExplain(st, step, ToCephObjectMetadata);
    GuardedFaultsExplain(st, bucketName, MapRun(step, ToCephObjectMetadata));
  }

  lemma DeleteFaultsExplain(st: Store, bucketName: string, order: seq<string>)
    ensures FaultsExplain(st, DeleteRun(st, bucketName, order))
  {
    DeleteOutcome(st, bucketName, order);
    GuardedFaultsExplain(st, bucketName, DeleteStep(st, bucketName, order));
  }

  lemma ExistAllFaultsExplain(st: Store, bucketName: string, order: seq<string>)
    ensures FaultsExplain(st, ExistAllRun(st, bucketName, order))
  {
    KeyStreams.ExistAllFaultsExplain(st, bucketName, order);
    GuardedFaultsExplain(st, bucketName, ExistAllStep(st, bucketName, order));
  }

  lemma ExistFaultsExplain(st: Store, bucketName: string, key: string)
    ensures FaultsExplain(st, ExistRun(st, bucketName, key))
  {
    ProbeFaultsExplain(st, bucketName, key);
    GuardedFaultsExplain(st, bucketName, ProbeStep(st, bucketName, key));
  }

  lemma KeysFaultsExplain(st: Store, bucketName: string, prefix: Option<string>)
    ensures FaultsExplain(st, KeysRun(st, bucketName, prefix))
  {
    ListOutcome(st, bucketName, prefix);
    MapRunFaultsExplain(st, ListStep(st, bucketName, prefix), KeySet);
    GuardedFaultsExplain(st, bucketName, MapRun(ListStep(st, bucketName, prefix), KeySet));
  }

  lemma GetMetadataFaultsExplain(st: Store, bucketName: string, order: seq<string>)
    ensures FaultsExplain(st, GetMetadataRun(st, bucketName, order))
  {
    var present := MapRun(MetadataStep(st, bucketName, order), ToCephObjectMetadataList);
    if forall i :: 0 <= i < |order| ==> Find(st, bucketName, order[i]).Some? {
      MetadataFaultsExplain(st, bucketName, order);
      MapRunFaultsExplain(st, MetadataStep(st, bucketName, order), ToCephObjectMetadataList);
    }
    ProbeAllThenFaultsExplain(st, bucketName, order, [], present);
    GuardedFaultsExplain(st, bucketName, ProbeAllThen(st, bucketName, order, [], present));
  }

  /**
   * `get` and `getKeys` are a Misconfiguration exactly when the store answers the bucket
   * listing and lists no bucket of that name; `get` leaves the store as it was.
   */
  lemma GetMisconfiguredIffUnknownBucket(st: Store, bucketName: string, key: string, prefix: Option<string>)
    ensures GetRun(st, bucketName, key).result.Misconfiguration? <==> Call.ListBuckets !in st.faults && !Listed(st.buckets, bucketName)
    ensures KeysRun(st, bucketName, prefix).result.Misconfiguration? <==> Call.ListBuckets !in st.faults && !Listed(st.buckets, bucketName)
    ensures GetRun(st, bucketName, key).after == st
  {
    var get := MapRun(GetObjectStep(st, bucketName, key), (obj: S3Object) => Some(ToCephObject(obj)));
    GuardDecides(st, bucketName, ProbeThen(st, bucketName, key, None, get));
    GuardDecides(st, bucketName, MapRun(ListStep(st, bucketName, prefix), KeySet));
  }

  /**
   * The set operations are a Misconfiguration exactly when the store answers the bucket
   * listing and lists no bucket of that name; `getMetadata` leaves the store as it was.
   */
  lemma SetMisconfiguredIffUnknownBucket(st: Store, bucketName: string, order: seq<string>)
    ensures ExistAllRun(st, bucketName, order).result.Misconfiguration? <==> Call.ListBuckets !in st.faults && !Listed(st.buckets, bucketName)
    ensures DeleteRun(st, bucketName, order).result.Misconfiguration? <==> Call.ListBuckets !in st.faults && !Listed(st.buckets, bucketName)
    ensures GetMetadataRun(st, bucketName, order).result.Misconfiguration? <==> Call.ListBuckets !in st.faults && !Listed(st.buckets, bucketName)
    ensures GetMetadataRun(st, bucketName, order).after == st
  {
    GuardDecides(st, bucketName, ExistAllStep(st, bucketName, order));
    GuardDecides(st, bucketName, DeleteStep(st, bucketName, order));
    var metadata := MapRun(MetadataStep(st, bucketName, order), ToCephObjectMetadataList);
    GuardDecides(st, bucketName, ProbeAllThen(st, bucketName, order, [], metadata));
  }
}
