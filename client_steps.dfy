/**
 * The single client interactions both facades wrap in `execute` or
 * `executeRunnable`: what each returns, which calls it issues and what it leaves
 * in the store (a `Run`), and a method that performs it on the client.
 */
module ClientSteps {
  import opened Wrappers
  import opened Utf8
  import opened CephModel
  import opened AmazonS3Store
  import opened BaseCephService

  /** A run with its result passed through `f` (the facade's conversion of a value). */
  function MapRun<T, U>(run: Run<T>, f: T -> U): Run<U> {
    Run(if run.result.Ok? then Ok(f(run.result.value)) else run.result.PropagateFailure(), run.calls, run.after)
  }

  /** `execute(() -> doesObjectExist(bucket, key))`. */
  function ProbeStep(st: Store, bucket: string, key: string): Run<bool> {
    Run(Execute(DoesObjectExistReply(st, bucket, key)), [Call.DoesObjectExist(bucket, key)], st)
  }

  /**
   * The probe-then-fetch shape of `get`, `getAsString` and `getMetadata`: the probe
   * first; `absent` when it answers false; otherwise `present`, run from the same store.
   */
  function ProbeThen<T>(st: Store, bucket: string, key: string, absent: T, present: Run<T>): Run<T> {
    var probe := ProbeStep(st, bucket, key);
    if probe.result.IsFailure() then Run(probe.result.PropagateFailure(), probe.calls, st)
    else if !probe.result.value then Run(Ok(absent), probe.calls, st)
    else Run(present.result, probe.calls + present.calls, present.after)
  }

  /** `execute(() -> getObject(bucket, key))`. */
  function GetObjectStep(st: Store, bucket: string, key: string): Run<S3Object> {
    Run(Execute(GetObjectReply(st, bucket, key)), [Call.GetObject(bucket, key)], st)
  }

  /** `execute(() -> getObjectAsString(bucket, key))`. */
  function GetObjectAsStringStep(st: Store, bucket: string, key: string): Run<string> {
    Run(Execute(GetObjectAsStringReply(st, bucket, key)), [Call.GetObjectAsString(bucket, key)], st)
  }

  /** `execute(() -> putObject(bucket, key, text))`. */
  function PutStringStep(st: Store, bucket: string, key: string, text: string): Run<()> {
    var call := Call.PutObjectString(bucket, key, text);
    var done := Execute(Reply(st, call, Returned(())));
    Run(done, [call], if done.Ok? then Stored(st, bucket, StringObject(key, text)) else st)
  }

  /** The metadata a stream put sends: the caller's content type and user metadata, no length. */
  function SentMetadata(contentType: Option<string>, userMetadata: map<string, string>): ObjectMetadata {
    ObjectMetadata(contentType, userMetadata, None)
  }

  /**
   * The `execute` block of a stream put: `putObject(bucket, key, stream, metadata)`, then
   * `getObjectMetadata(bucket, key)` from the store the put left.
   */
  function PutStreamStep(st: Store, bucket: string, key: string, contentType: Option<string>,
                         userMetadata: map<string, string>, content: seq<Byte>): Run<ObjectMetadata>
  {
    var sent := SentMetadata(contentType, userMetadata);
    var put := Call.PutObjectStream(bucket, key, content, sent);
    var stored := Execute(Reply(st, put, Returned(())));
    if stored.IsFailure() then Run(stored.PropagateFailure(), [put], st)
    else
      var after := Stored(st, bucket, StreamObject(key, content, sent));
      Run(Execute(GetObjectMetadataReply(after, bucket, key)), [put, Call.GetObjectMetadata(bucket, key)], after)
  }

  /** `executeRunnable` around one `deleteObjects` request naming `keys` in order. */
  function DeleteStep(st: Store, bucket: string, keys: seq<string>): Run<()> {
    var call := Call.DeleteObjects(bucket, keys);
    var done := ExecuteRunnable(Reply(st, call, Returned(())));
    Run(done, [call], if done.Ok? then Removed(st, bucket, set k | k in keys) else st)
  }

  /** `execute(() -> listObjects(bucket[, prefix]).getObjectSummaries())`. */
  function ListStep(st: Store, bucket: string, prefix: Option<string>): Run<seq<S3ObjectSummary>> {
    Run(Execute(ListObjectsReply(st, bucket, prefix)), [Call.ListObjects(bucket, prefix)], st)
  }

  /** Without faults a probe answers whether the key is stored. */
  lemma ProbeFaultFree(st: Store, bucket: string, key: string)
    requires NoFaults(st)
    ensures ProbeStep(st, bucket, key).result == Ok(Find(st, bucket, key).Some?)
  {
  }

  /**
   * The probe guards the fetch: whatever the faults, `present` runs only when the key is
   * stored, and the result is then `present`'s.
   */
  lemma ProbeThenGuards<T>(st: Store, bucket: string, key: string, absent: T, present: Run<T>)
    ensures Find(st, bucket, key).None? ==>
              ProbeThen(st, bucket, key, absent, present).result.Ok? ==> ProbeThen(st, bucket, key, absent, present).result.value == absent
    ensures Find(st, bucket, key).None? ==>
              ProbeThen(st, bucket, key, absent, present).calls == [Call.DoesObjectExist(bucket, key)] &&
              ProbeThen(st, bucket, key, absent, present).after == st
    ensures NoFaults(st) && Find(st, bucket, key).None? ==>
              ProbeThen(st, bucket, key, absent, present) == Run(Ok(absent), [Call.DoesObjectExist(bucket, key)], st)
    ensures NoFaults(st) && Find(st, bucket, key).Some? ==>
              ProbeThen(st, bucket, key, absent, present) == Run(present.result, [Call.DoesObjectExist(bucket, key)] + present.calls, present.after)
  {
  }

  /** A probe-then-fetch fails only on a fault of the probe, or of a fetch of a stored key. */
  lemma ProbeThenFaultsExplain<T>(st: Store, bucket: string, key: string, absent: T, present: Run<T>)
    requires Find(st, bucket, key).Some? ==> FaultsExplain(st, present)
    ensures FaultsExplain(st, ProbeThen(st, bucket, key, absent, present))
  {
    var run := ProbeThen(st, bucket, key, absent, present);
    if run.result.Communication? {
      var probe := ProbeStep(st, bucket, key);
      if probe.result.IsFailure() {
        assert run.calls[0] == Call.DoesObjectExist(bucket, key);
      } else {
        var i :| 0 <= i < |present.calls| && present.calls[i] in st.faults && st.faults[present.calls[i]] == present.result.message;
        assert run.calls[i + 1] == present.calls[i];
      }
    }
  }

  /** Fetching a stored object fails only on an injected fault; without one it is that object. */
  lemma GetObjectOfStored(st: Store, bucket: string, key: string)
    requires Find(st, bucket, key).Some?
    ensures FaultsExplain(st, GetObjectStep(st, bucket, key))
    ensures FaultsExplain(st, GetObjectAsStringStep(st, bucket, key))
    ensures NoFaults(st) ==> GetObjectStep(st, bucket, key).result == Ok(Find(st, bucket, key).value)
    ensures NoFaults(st) ==> GetObjectAsStringStep(st, bucket, key).result == Ok(Decode(Find(st, bucket, key).value.content))
  {
    assert GetObjectStep(st, bucket, key).calls[0] == Call.GetObject(bucket, key);
    assert GetObjectAsStringStep(st, bucket, key).calls[0] == Call.GetObjectAsString(bucket, key);
  }

  /** A mapped run fails exactly as the run does. */
  lemma MapRunFaultsExplain<T, U>(st: Store, run: Run<T>, f: T -> U)
    requires FaultsExplain(st, run)
    ensures FaultsExplain(st, MapRun(run, f))
  {
  }

  /**
   * The metadata a stream put reads back is what the store made of the sent metadata:
   * the caller's content type (octet-stream when none), the caller's user metadata and
   * the length of the content. Without faults the put succeeds, and the object is stored.
   */
  lemma PutStreamReadsBack(st: Store, bucket: string, key: string, contentType: Option<string>,
                           userMetadata: map<string, string>, content: seq<Byte>)
    requires NoFaults(st)
    ensures PutStreamStep(st, bucket, key, contentType, userMetadata, content).result ==
              Ok(ObjectMetadata(if contentType.Some? then contentType else Some(OctetStream), userMetadata, Some(|content|)))
    ensures PutStreamStep(st, bucket, key, contentType, userMetadata, content).after ==
              Stored(st, bucket, StreamObject(key, content, SentMetadata(contentType, userMetadata)))
  {
    var obj := StreamObject(key, content, SentMetadata(contentType, userMetadata));
    StoredFind(st, bucket, obj, bucket, key);
  }

  /** A stream put fails only on a fault of the put or of the read-back. */
  lemma PutStreamFaultsExplain(st: Store, bucket: string, key: string, contentType: Option<string>,
                               userMetadata: map<string, string>, content: seq<Byte>)
    ensures FaultsExplain(st, PutStreamStep(st, bucket, key, contentType, userMetadata, content))
  {
    var run := PutStreamStep(st, bucket, key, contentType, userMetadata, content);
    var obj := StreamObject(key, content, SentMetadata(contentType, userMetadata));
    StoredFind(st, bucket, obj, bucket, key);
    if run.result.Communication? {
      if |run.calls| == 2 {
        var head := Call.GetObjectMetadata(bucket, key);
        assert run.calls[1] == head;
        assert head in st.faults;
      } else {
        assert run.calls[0] == Call.PutObjectStream(bucket, key, content, SentMetadata(contentType, userMetadata));
      }
    }
  }

  /** A string put fails only on its own fault; without one it stores the UTF-8 text. */
  lemma PutStringOutcome(st: Store, bucket: string, key: string, text: string)
    ensures FaultsExplain(st, PutStringStep(st, bucket, key, text))
    ensures NoFaults(st) ==>
              PutStringStep(st, bucket, key, text) == Run(Ok(()), [Call.PutObjectString(bucket, key, text)], Stored(st, bucket, StringObject(key, text)))
  {
    assert PutStringStep(st, bucket, key, text).calls[0] == Call.PutObjectString(bucket, key, text);
  }

  /** A delete fails only on its own fault; without one the keys are gone from the bucket. */
  lemma DeleteOutcome(st: Store, bucket: string, keys: seq<string>)
    ensures FaultsExplain(st, DeleteStep(st, bucket, keys))
    ensures NoFaults(st) ==>
              DeleteStep(st, bucket, keys) == Run(Ok(()), [Call.DeleteObjects(bucket, keys)], Removed(st, bucket, set k | k in keys))
  {
    assert DeleteStep(st, bucket, keys).calls[0] == Call.DeleteObjects(bucket, keys);
  }

  /** A listing fails only on its own fault; without one it lists the bucket's matching objects. */
  lemma ListOutcome(st: Store, bucket: string, prefix: Option<string>)
    ensures FaultsExplain(st, ListStep(st, bucket, prefix))
    ensures NoFaults(st) ==> ListStep(st, bucket, prefix).result == Ok(ListingOf(ObjectsOf(st, bucket), prefix))
  {
    assert ListStep(st, bucket, prefix).calls[0] == Call.ListObjects(bucket, prefix);
  }

  /** A probe fails only on its own fault. */
  lemma ProbeFaultsExplain(st: Store, bucket: string, key: string)
    ensures FaultsExplain(st, ProbeStep(st, bucket, key))
  {
    assert ProbeStep(st, bucket, key).calls[0] == Call.DoesObjectExist(bucket, key);
  }

  method Probe(s3: AmazonS3, bucket: string, key: string) returns (r: Result<bool>)
    modifies s3`log
    ensures r == ProbeStep(s3.store, bucket, key).result
    ensures s3.log == old(s3.log) + ProbeStep(s3.store, bucket, key).calls
  {
    var reply := s3.DoesObjectExist(bucket, key);
    r := Execute(reply);
  }

  method FetchObject(s3: AmazonS3, bucket: string, key: string) returns (r: Result<S3Object>)
    modifies s3`log
    ensures r == GetObjectStep(s3.store, bucket, key).result
    ensures s3.log == old(s3.log) + GetObjectStep(s3.store, bucket, key).calls
  {
    var reply := s3.GetObject(bucket, key);
    r := Execute(reply);
  }

  method FetchObjectAsString(s3: AmazonS3, bucket: string, key: string) returns (r: Result<string>)
    modifies s3`log
    ensures r == GetObjectAsStringStep(s3.store, bucket, key).result
    ensures s3.log == old(s3.log) + GetObjectAsStringStep(s3.store, bucket, key).calls
  {
    var reply := s3.GetObjectAsString(bucket, key);
    r := Execute(reply);
  }

  method PutString(s3: AmazonS3, bucket: string, key: string, text: string) returns (r: Result<()>)
    modifies s3`log, s3`store
    ensures r == PutStringStep(old(s3.store), bucket, key, text).result
    ensures s3.log == old(s3.log) + PutStringStep(old(s3.store), bucket, key, text).calls
    ensures s3.store == PutStringStep(old(s3.store), bucket, key, text).after
  {
    var reply := s3.PutObjectString(bucket, key, text);
    r := Execute(reply);
  }

  method PutStream(s3: AmazonS3, bucket: string, key: string, contentType: Option<string>,
                   userMetadata: map<string, string>, content: seq<Byte>) returns (r: Result<ObjectMetadata>)
    modifies s3`log, s3`store
    ensures r == PutStreamStep(old(s3.store), bucket, key, contentType, userMetadata, content).result
    ensures s3.log == old(s3.log) + PutStreamStep(old(s3.store), bucket, key, contentType, userMetadata, content).calls
    ensures s3.store == PutStreamStep(old(s3.store), bucket, key, contentType, userMetadata, content).after
  {
    var stored := s3.PutObjectStream(bucket, key, content, SentMetadata(contentType, userMetadata));
    var ok :- Execute(stored);
    var head := s3.GetObjectMetadata(bucket, key);
    r := Execute(head);
  }

  method DeleteKeys(s3: AmazonS3, bucket: string, keys: seq<string>) returns (r: Result<()>)
    modifies s3`log, s3`store
    ensures r == DeleteStep(old(s3.store), bucket, keys).result
    ensures s3.log == old(s3.log) + DeleteStep(old(s3.store), bucket, keys).calls
    ensures s3.store == DeleteStep(old(s3.store), bucket, keys).after
  {
    var reply := s3.DeleteObjects(bucket, keys);
    r := ExecuteRunnable(reply);
  }

  method List(s3: AmazonS3, bucket: string, prefix: Option<string>) returns (r: Result<seq<S3ObjectSummary>>)
    modifies s3`log
    ensures r == ListStep(s3.store, bucket, prefix).result
    ensures s3.log == old(s3.log) + ListStep(s3.store, bucket, prefix).calls
  {
    var reply := s3.ListObjects(bucket, prefix);
    r := Execute(reply);
  }
}
