/**
 * The logic every facade shares: the bucket guard and the translation of the
 * client's runtime failures into the facade's two error kinds.
 */
module BaseCephService {
  import opened Wrappers
  import opened CephModel
  import opened AmazonS3Store

  /**
   * A facade call's outcome: a value, a `MisconfigurationException` (the bucket is
   * not known to the store) or a `CephCommunicationException` (a client call threw).
   */
  datatype Result<+T> = Ok(value: T) | Misconfiguration(message: string) | Communication(message: string)
  {
    predicate IsFailure() {
      !Ok?
    }

    function PropagateFailure<U>(): Result<U>
      requires !Ok?
    {
      if Misconfiguration? then Misconfiguration(message) else Communication(message)
    }

    function Extract(): T
      requires Ok?
    {
      value
    }
  }

  /**
   * What one facade call does to the client, as a function of the store it starts
   * from: its result, the client calls it issues (in order) and the store it leaves.
   */
  datatype Run<+T> = Run(result: Result<T>, calls: seq<Call>, after: Store)

  /** Some bucket of the listing has exactly this name. */
  predicate Listed(buckets: seq<Bucket>, bucketName: string) {
    exists i :: 0 <= i < |buckets| && buckets[i].name == bucketName
  }

  /** A store none of whose calls is set to throw. */
  predicate NoFaults(st: Store) {
    st.faults == map[]
  }

  /**
   * A Communication error of `run` carries the message of an injected fault on one of
   * the calls `run` issued: the store's own answers (a missing key) never surface.
   */
  predicate FaultsExplain<T>(st: Store, run: Run<T>) {
    run.result.Communication? ==>
      exists i :: 0 <= i < |run.calls| && run.calls[i] in st.faults && st.faults[run.calls[i]] == run.result.message
  }

  /** The message of the Misconfiguration raised for an unknown bucket. */
  function BucketNotFoundMessage(bucketName: string): string {
    "Bucket " + bucketName + " hasn't found"
  }

  /**
   * `execute(supplier)`: the supplier's value unchanged, or, when it throws, a
   * Communication error with the same message. It never yields Misconfiguration.
   */
  function Execute<T>(call: Outcome<T>): (r: Result<T>)
    ensures call.Returned? <==> r.Ok?
    ensures call.Returned? ==> r.value == call.value
    ensures call.Threw? ==> r == Communication(call.message)
  {
    match call
    case Returned(v) => Ok(v)
    case Threw(m) => Communication(m)
  }

  /** `executeRunnable(runnable)`: the same translation for an action without a value. */
  function ExecuteRunnable(action: Outcome<()>): (r: Result<()>)
    ensures action.Returned? <==> r.Ok?
    ensures action.Threw? ==> r == Communication(action.message)
  {
    Execute(action)
  }

  /** `buckets.stream().filter(name equals).findFirst()`. */
  function FindFirst(buckets: seq<Bucket>, bucketName: string): (r: Option<Bucket>)
    ensures r.Some? <==> exists i :: 0 <= i < |buckets| && buckets[i].name == bucketName
    ensures r.Some? ==> r.value.name == bucketName && r.value in buckets
  {
    if buckets == [] then None
    else if buckets[0].name == bucketName then Some(buckets[0])
    else FindFirst(buckets[1..], bucketName)
  }

  /**
   * `assertBucketExists`, given what `listBuckets` did: it passes exactly when some
   * listed bucket has this exact name; a listing that threw is a Communication error,
   * never a Misconfiguration.
   */
  function AssertBucketExists(listing: Outcome<seq<Bucket>>, bucketName: string): (r: Result<()>)
    ensures r.Ok? <==> listing.Returned? && Listed(listing.value, bucketName)
    ensures r.Misconfiguration? <==> listing.Returned? && !Listed(listing.value, bucketName)
    ensures r.Misconfiguration? ==> r.message == BucketNotFoundMessage(bucketName)
    ensures listing.Threw? ==> r == Communication(listing.message)
  {
    var buckets :- Execute(listing);
    if FindFirst(buckets, bucketName).Some? then Ok(()) else Misconfiguration(BucketNotFoundMessage(bucketName))
  }

  /**
   * A facade operation: the bucket guard first; when it passes, `body` (what the
   * operation does next, from the same store) follows it.
   */
  function Guarded<T>(st: Store, bucketName: string, body: Run<T>): Run<T> {
    var guard := AssertBucketExists(ListBucketsReply(st), bucketName);
    if guard.IsFailure() then Run(guard.PropagateFailure(), [Call.ListBuckets], st)
    else Run(body.result, [Call.ListBuckets] + body.calls, body.after)
  }

  /**
   * The guard decides alone whether an operation is a Misconfiguration: exactly when the
   * store lists no bucket of that name, and then `listBuckets` is the only call and the
   * store is left as it was. A fault on `listBuckets` is a Communication error. When the
   * guard passes, the operation is its body.
   */
  lemma GuardDecides<T>(st: Store, bucketName: string, body: Run<T>)
    requires !body.result.Misconfiguration?
    ensures Guarded(st, bucketName, body).result.Misconfiguration? <==>
              Call.ListBuckets !in st.faults && !Listed(st.buckets, bucketName)
    ensures Guarded(st, bucketName, body).result.Misconfiguration? ==>
              Guarded(st, bucketName, body).result.message == BucketNotFoundMessage(bucketName) &&
              Guarded(st, bucketName, body).calls == [Call.ListBuckets] && Guarded(st, bucketName, body).after == st
    ensures Call.ListBuckets in st.faults ==>
              Guarded(st, bucketName, body) == Run(Communication(st.faults[Call.ListBuckets]), [Call.ListBuckets], st)
    ensures Call.ListBuckets !in st.faults && Listed(st.buckets, bucketName) ==>
              Guarded(st, bucketName, body) == Run(body.result, [Call.ListBuckets] + body.calls, body.after)
  {
  }

  /** When the body's errors come from faults on its own calls, so do the operation's. */
  lemma GuardedFaultsExplain<T>(st: Store, bucketName: string, body: Run<T>)
    requires FaultsExplain(st, body)
    ensures FaultsExplain(st, Guarded(st, bucketName, body))
  {
    var run := Guarded(st, bucketName, body);
    if run.result.Communication? {
      if Call.ListBuckets in st.faults {
        assert run.calls[0] == Call.ListBuckets;
      } else {
        var i :| 0 <= i < |body.calls| && body.calls[i] in st.faults && st.faults[body.calls[i]] == body.result.message;
        assert run.calls[i + 1] == body.calls[i];
      }
    }
  }

  /**
   * The guard as a facade runs it: one `listBuckets` call and nothing else, which
   * leaves the store's buckets and objects as they were.
   */
  method GuardBucket(s3: AmazonS3, bucketName: string) returns (r: Result<()>)
    modifies s3`log
    ensures s3.log == old(s3.log) + [Call.ListBuckets]
    ensures r == AssertBucketExists(ListBucketsReply(s3.store), bucketName)
  {
    var listing := s3.ListBuckets();
    r := AssertBucketExists(listing, bucketName);
  }
}
