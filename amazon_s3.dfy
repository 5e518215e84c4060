/**
 * The object-store client (`AmazonS3`) as an abstract in-memory store. Each
 * bucket holds its objects in listing order. A map of injected faults says
 * which calls throw a RuntimeException, and with what message; every call the
 * facades issue is appended to a log, in order.
 */
module AmazonS3Store {
  import opened Wrappers
  import opened Utf8
  import opened CephModel

  /** What one client call does: return a value, or throw a RuntimeException. */
  datatype Outcome<+T> = Returned(value: T) | Threw(message: string)

  /** A call into the client, with its arguments. */
  datatype Call =
    | ListBuckets
    | DoesObjectExist(bucket: string, key: string)
    | GetObject(bucket: string, key: string)
    | GetObjectAsString(bucket: string, key: string)
    | GetObjectMetadata(bucket: string, key: string)
    | PutObjectString(bucket: string, key: string, text: string)
    | PutObjectStream(bucket: string, key: string, content: seq<Byte>, metadata: ObjectMetadata)
    | DeleteObjects(bucket: string, keys: seq<string>)
    | ListObjects(bucket: string, prefix: Option<string>)

  /** The store's answer to a GET of a missing key. */
  const NoSuchKeyMessage := "The specified key does not exist."
  /** The store's answer to a HEAD of a missing key (the response has no body). */
  const NotFoundMessage := "Not Found"
  /** The content type the client attaches to a string it stores. */
  const TextPlain := "text/plain"
  /** The content type the client attaches to a stream stored without one. */
  const OctetStream := "application/octet-stream"

  /** The first object with `key` in a bucket's listing. */
  function Lookup(objects: seq<S3Object>, key: string): (r: Option<S3Object>)
    ensures r.Some? <==> exists i :: 0 <= i < |objects| && objects[i].key == key
    ensures r.Some? ==> r.value in objects && r.value.key == key
  {
    if objects == [] then None
    else if objects[0].key == key then Some(objects[0])
    else Lookup(objects[1..], key)
  }

  /** Stores `obj`: it replaces the first object with the same key, or joins the end of the listing. */
  function Upsert(objects: seq<S3Object>, obj: S3Object): (r: seq<S3Object>)
    ensures Lookup(r, obj.key) == Some(obj)
    ensures forall k :: k != obj.key ==> Lookup(r, k) == Lookup(objects, k)
  {
    if objects == [] then [obj]
    else if objects[0].key == obj.key then [obj] + objects[1..]
    else [objects[0]] + Upsert(objects[1..], obj)
  }

  /** Removes every object whose key is in `keys`, keeping the others in order. */
  function RemoveKeys(objects: seq<S3Object>, keys: set<string>): (r: seq<S3Object>)
    ensures forall k :: k in keys ==> Lookup(r, k) == None
    ensures forall k :: k !in keys ==> Lookup(r, k) == Lookup(objects, k)
  {
    if objects == [] then []
    else if objects[0].key in keys then RemoveKeys(objects[1..], keys)
    else [objects[0]] + RemoveKeys(objects[1..], keys)
  }

  /** Whether a listing with this prefix (none: the whole bucket) includes `key`. */
  predicate Matches(prefix: Option<string>, key: string) {
    prefix.None? || prefix.value <= key
  }

  /** The summaries a listing returns: the objects whose keys match the prefix, in listing order. */
  function ListingOf(objects: seq<S3Object>, prefix: Option<string>): (r: seq<S3ObjectSummary>)
    ensures |r| <= |objects|
    ensures forall i :: 0 <= i < |r| ==> Matches(prefix, r[i].key) && Lookup(objects, r[i].key).Some?
    ensures forall k :: Matches(prefix, k) && Lookup(objects, k).Some? ==> S3ObjectSummary(k) in r
  {
    if objects == [] then []
    else if Matches(prefix, objects[0].key) then [S3ObjectSummary(objects[0].key)] + ListingOf(objects[1..], prefix)
    else ListingOf(objects[1..], prefix)
  }

  /**
   * A listing keeps the bucket's order: listing two runs of objects one after the other
   * lists the first run's matches, then the second's.
   */
  lemma {:induction false} ListingOfAppend(a: seq<S3Object>, b: seq<S3Object>, prefix: Option<string>)
    ensures ListingOf(a + b, prefix) == ListingOf(a, prefix) + ListingOf(b, prefix)
  {
    if a == [] {
      assert a + b == b;
    } else {
      assert (a + b)[1..] == a[1..] + b;
      ListingOfAppend(a[1..], b, prefix);
    }
  }

  /** The object `putObject(bucket, key, String)` stores: UTF-8 bytes, typed text/plain. */
  function StringObject(key: string, text: string): S3Object {
    var bytes := Encode(text);
    S3Object(key, ObjectMetadata(Some(TextPlain), map[], Some(|bytes|)), bytes)
  }

  /**
   * The object `putObject(bucket, key, stream, metadata)` stores: the caller's content
   * type (octet-stream when there is none) and user metadata, and the length the store
   * actually received.
   */
  function StreamObject(key: string, content: seq<Byte>, sent: ObjectMetadata): S3Object {
    var contentType := if sent.contentType.Some? then sent.contentType else Some(OctetStream);
    S3Object(key, ObjectMetadata(contentType, sent.userMetadata, Some(|content|)), content)
  }

  /**
   * What the client sees of the store at one moment: its buckets, the objects of each
   * bucket in listing order, and the calls that throw, with the message they throw.
   */
  datatype Store = Store(buckets: seq<Bucket>, objects: map<string, seq<S3Object>>, faults: map<Call, string>)

  /** A bucket's objects in listing order (none for a bucket the store does not hold). */
  function ObjectsOf(st: Store, bucket: string): seq<S3Object> {
    if bucket in st.objects then st.objects[bucket] else []
  }

  /** The object stored under `key` in `bucket`, if any. */
  function Find(st: Store, bucket: string, key: string): Option<S3Object> {
    Lookup(ObjectsOf(st, bucket), key)
  }

  /** A call's outcome: its injected fault if it has one, else what the store does. */
  function Reply<T>(st: Store, call: Call, natural: Outcome<T>): Outcome<T> {
    if call in st.faults then Threw(st.faults[call]) else natural
  }

  function ListBucketsReply(st: Store): Outcome<seq<Bucket>> {
    Reply(st, Call.ListBuckets, Returned(st.buckets))
  }

  function DoesObjectExistReply(st: Store, bucket: string, key: string): Outcome<bool> {
    Reply(st, Call.DoesObjectExist(bucket, key), Returned(Find(st, bucket, key).Some?))
  }

  function GetObjectReply(st: Store, bucket: string, key: string): Outcome<S3Object> {
    var found := Find(st, bucket, key);
    Reply(st, Call.GetObject(bucket, key), if found.Some? then Returned(found.value) else Threw(NoSuchKeyMessage))
  }

  function GetObjectAsStringReply(st: Store, bucket: string, key: string): Outcome<string> {
    var found := Find(st, bucket, key);
    Reply(st, Call.GetObjectAsString(bucket, key),
      if found.Some? then Returned(Decode(found.value.content)) else Threw(NoSuchKeyMessage))
  }

  function GetObjectMetadataReply(st: Store, bucket: string, key: string): Outcome<ObjectMetadata> {
    var found := Find(st, bucket, key);
    Reply(st, Call.GetObjectMetadata(bucket, key),
      if found.Some? then Returned(found.value.metadata) else Threw(NotFoundMessage))
  }

  function ListObjectsReply(st: Store, bucket: string, prefix: Option<string>): Outcome<seq<S3ObjectSummary>> {
    Reply(st, Call.ListObjects(bucket, prefix), Returned(ListingOf(ObjectsOf(st, bucket), prefix)))
  }

  /** The store once `obj` is stored in `bucket`. */
  function Stored(st: Store, bucket: string, obj: S3Object): Store {
    st.(objects := st.objects[bucket := Upsert(ObjectsOf(st, bucket), obj)])
  }

  /** The store once the objects with these keys are removed from `bucket`. */
  function Removed(st: Store, bucket: string, keys: set<string>): Store {
    st.(objects := st.objects[bucket := RemoveKeys(ObjectsOf(st, bucket), keys)])
  }

  /** Storing an object makes it the one found under its key, and changes nothing else. */
  lemma StoredFind(st: Store, bucket: string, obj: S3Object, b: string, k: string)
    ensures Find(Stored(st, bucket, obj), b, k) == if b == bucket && k == obj.key then Some(obj) else Find(st, b, k)
    ensures Stored(st, bucket, obj).buckets == st.buckets && Stored(st, bucket, obj).faults == st.faults
  {
  }

  /** Removing keys leaves none of them in the bucket, and changes nothing else. */
  lemma RemovedFind(st: Store, bucket: string, keys: set<string>, b: string, k: string)
    ensures Find(Removed(st, bucket, keys), b, k) == if b == bucket && k in keys then None else Find(st, b, k)
    ensures Removed(st, bucket, keys).buckets == st.buckets && Removed(st, bucket, keys).faults == st.faults
  {
  }

  /** The client: every call is logged, answers from the store, and writes change the store. */
  class AmazonS3 {
    var store: Store
    /** Every call issued so far, oldest first. */
    var log: seq<Call>

    constructor (store: Store)
      ensures this.store == store && log == []
    {
      this.store := store;
      log := [];
    }

    method ListBuckets() returns (r: Outcome<seq<Bucket>>)
      modifies this`log
      ensures log == old(log) + [Call.ListBuckets]
      ensures r == ListBucketsReply(store)
    {
      log := log + [Call.ListBuckets];
      r := ListBucketsReply(store);
    }

    method DoesObjectExist(bucket: string, key: string) returns (r: Outcome<bool>)
      modifies this`log
      ensures log == old(log) + [Call.DoesObjectExist(bucket, key)]
      ensures r == DoesObjectExistReply(store, bucket, key)
    {
      log := log + [Call.DoesObjectExist(bucket, key)];
      r := DoesObjectExistReply(store, bucket, key);
    }

    method GetObject(bucket: string, key: string) returns (r: Outcome<S3Object>)
      modifies this`log
      ensures log == old(log) + [Call.GetObject(bucket, key)]
      ensures r == GetObjectReply(store, bucket, key)
    {
      log := log + [Call.GetObject(bucket, key)];
      r := GetObjectReply(store, bucket, key);
    }

    method GetObjectAsString(bucket: string, key: string) returns (r: Outcome<string>)
      modifies this`log
      ensures log == old(log) + [Call.GetObjectAsString(bucket, key)]
      ensures r == GetObjectAsStringReply(store, bucket, key)
    {
      log := log + [Call.GetObjectAsString(bucket, key)];
      r := GetObjectAsStringReply(store, bucket, key);
    }

    method GetObjectMetadata(bucket: string, key: string) returns (r: Outcome<ObjectMetadata>)
      modifies this`log
      ensures log == old(log) + [Call.GetObjectMetadata(bucket, key)]
      ensures r == GetObjectMetadataReply(store, bucket, key)
    {
      log := log + [Call.GetObjectMetadata(bucket, key)];
      r := GetObjectMetadataReply(store, bucket, key);
    }

    method ListObjects(bucket: string, prefix: Option<string>) returns (r: Outcome<seq<S3ObjectSummary>>)
      modifies this`log
      ensures log == old(log) + [Call.ListObjects(bucket, prefix)]
      ensures r == ListObjectsReply(store, bucket, prefix)
    {
      log := log + [Call.ListObjects(bucket, prefix)];
      r := ListObjectsReply(store, bucket, prefix);
    }

    method PutObjectString(bucket: string, key: string, text: string) returns (r: Outcome<()>)
      modifies this`log, this`store
      ensures log == old(log) + [Call.PutObjectString(bucket, key, text)]
      ensures r == Reply(old(store), Call.PutObjectString(bucket, key, text), Returned(()))
      ensures store == if r.Threw? then old(store) else Stored(old(store), bucket, StringObject(key, text))
    {
      var call := Call.PutObjectString(bucket, key, text);
      log := log + [call];
      r := Reply(store, call, Returned(()));
      if r.Returned? {
        store := Stored(store, bucket, StringObject(key, text));
      }
    }

    method PutObjectStream(bucket: string, key: string, content: seq<Byte>, metadata: ObjectMetadata)
      returns (r: Outcome<()>)
      modifies this`log, this`store
      ensures log == old(log) + [Call.PutObjectStream(bucket, key, content, metadata)]
      ensures r == Reply(old(store), Call.PutObjectStream(bucket, key, content, metadata), Returned(()))
      ensures store == if r.Threw? then old(store) else Stored(old(store), bucket, StreamObject(key, content, metadata))
    {
      var call := Call.PutObjectStream(bucket, key, content, metadata);
      log := log + [call];
      r := Reply(store, call, Returned(()));
      if r.Returned? {
        store := Stored(store, bucket, StreamObject(key, content, metadata));
      }
    }

    /** One batch request; keys that are not stored are skipped, as the store does. */
    method DeleteObjects(bucket: string, keys: seq<string>) returns (r: Outcome<()>)
      modifies this`log, this`store
      ensures log == old(log) + [Call.DeleteObjects(bucket, keys)]
      ensures r == Reply(old(store), Call.DeleteObjects(bucket, keys), Returned(()))
      ensures store == if r.Threw? then old(store) else Removed(old(store), bucket, set k | k in keys)
    {
      var call := Call.DeleteObjects(bucket, keys);
      log := log + [call];
      r := Reply(store, call, Returned(()));
      if r.Returned? {
        store := Removed(store, bucket, set k | k in keys);
      }
    }
  }
}
