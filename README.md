# edp-ddm-ceph-client, modelled in Dafny

This project models the storage facades of the Ceph client library. The library is a thin layer over an S3 client (`AmazonS3`) talking to a Ceph object gateway. The project also models the metrics collector that the library attaches to that client.

- **`CephServiceS3Impl`** is the bucket-parameterised facade:
  - `get`, `getAsString`, `put` of a string or a stream, `delete`, `exist` of a set of keys or of one key, `getKeys` with or without a prefix, and `getMetadata`.
  - It converts the client's objects and metadata into the library's `CephObject` and `CephObjectMetadata`.
- **`S3ObjectCephServiceImpl`** is the facade over one configured bucket. It offers `put`, `get`, `getMetadata`, `delete`, `exist` and `getKeys` over lists of keys, and returns the client's own types.
- **`BaseCephService`** holds the logic both facades share:
  - the bucket guard `assertBucketExists`, which raises a `MisconfigurationException` ("Bucket <name> hasn't found") when `listBuckets` does not list the bucket;
  - `execute`/`executeRunnable`, which turn any runtime failure of a client call into a `CephCommunicationException` with the same message.
  - `CephServiceS3Impl` has its own private copies of these three methods (`CephServiceS3Impl.java:195-219`). They are identical to the base class, so both facades use the one model.
- **`MicrometerMetricsCollector`** records what the SDK reports after each request:
  - three connection-pool gauges;
  - an exception counter and a client-execution-time timer, both tagged with the bucket and the operation, for the five request types it recognises.

## How the model is built

- **The store is a value.** `AmazonS3Store.Store` holds:
  - the buckets;
  - each bucket's objects, as a sequence in listing order;
  - a map of *faults*: client calls that are set to throw, with their messages.
- **The client is an object.** `AmazonS3Store.AmazonS3` is a class whose `store` and call `log` its methods update in place. Each method's reply is `Reply(store, call, natural answer)`: the injected fault when the call has one, otherwise the store's own answer.
- **Each facade operation has a specification function** (`GetRun`, `ExistAllRun`, …). It gives a `Run`:
  - the `Result` (`Ok`, `Misconfiguration` or `Communication`);
  - the exact sequence of client calls;
  - the store the operation leaves.
- **Each facade method is proved against its function.** For example, `CephServiceS3Impl.Get` ensures that its result is `GetRun(old(store)).result` and that the log grows by exactly `GetRun`'s calls.
- **Lemmas about the functions state what the library promises:**
  - what each operation answers on a fault-free store;
  - that a `Misconfiguration` happens exactly when the bucket is unknown;
  - that every `Communication` error carries the message of a fault on a call the operation really made;
  - the round trips of `put` followed by `get`;
  - what `delete` leaves behind.
- **Short-circuiting streams are modelled call by call:**
  - `keys.stream().allMatch(doesObjectExist)` is in `KeyStreams.ProbeAll`/`AllMatch`. It stops after the first probe that is not true, or the first that throws.
  - `keys.stream().map(getObjectMetadata).collect(toList())` is in `KeyStreams.FetchMetadata`/`CollectAll`. It stops at the first call that throws.
  - A `Set<String>` is streamed in some order the model leaves open: a ghost enumeration of the set.
- **Text is UTF-8.** `putObject(bucket, key, String)` stores UTF-8 bytes and `getObjectAsString` decodes them. `Utf8.DecodeEncode` proves the round trip for every string without unpaired surrogates, which a Dafny `string` cannot hold.
- **The metrics collector is a class** (`MetricsCollector.MicrometerMetricsCollector`) with the gauge map, the registrations, the counters and the timer records as fields.
  - Each method is proved against a function on a `Meters` value.
  - Lemmas cover the gauges (each registered once, last value wins), the counter, the timer, and the invariant that only the three pool gauges ever exist.

## Model

| member | source | states |
|---|---|---|
| BaseCephService.Execute | src/main/java/com/epam/digital/data/platform/integration/ceph/service/BaseCephService.java:41-47 | a returning call's value passes through unchanged; a call that throws becomes a Communication error with the same message; never a Misconfiguration |
| BaseCephService.ExecuteRunnable | src/main/java/com/epam/digital/data/platform/integration/ceph/service/BaseCephService.java:49-55 | an action that returns gives Ok; one that throws becomes a Communication error with its message |
| BaseCephService.FindFirst | src/main/java/com/epam/digital/data/platform/integration/ceph/service/BaseCephService.java:34-36 | finds a bucket exactly when some listed bucket has that exact name, and the one found has it |
| BaseCephService.AssertBucketExists | src/main/java/com/epam/digital/data/platform/integration/ceph/service/BaseCephService.java:31-39 | passes exactly when `listBuckets` answers and lists the name; a Misconfiguration ("Bucket <name> hasn't found") exactly when it answers without it; a throwing `listBuckets` is a Communication error |
| BaseCephService.GuardDecides | src/main/java/com/epam/digital/data/platform/integration/ceph/service/BaseCephService.java:31-39 | an operation behind the guard is a Misconfiguration exactly when `listBuckets` is not faulted and does not list the bucket, and then `listBuckets` is its only call and the store is unchanged; when the bucket is listed, the operation is its body |
| BaseCephService.GuardedFaultsExplain | src/main/java/com/epam/digital/data/platform/integration/ceph/service/BaseCephService.java:31-47 | the guard adds no Communication error that does not come from a fault on a call it made |
| BaseCephService.GuardBucket | src/main/java/com/epam/digital/data/platform/integration/ceph/service/BaseCephService.java:31-39 | issues exactly one `listBuckets` and returns the guard's verdict on its reply |
| Utf8.DecodeEncode | src/main/java/com/epam/digital/data/platform/integration/ceph/service/impl/CephServiceS3Impl.java:93-102 | text stored by `putObject(bucket, key, String)` as UTF-8 reads back by `getObjectAsString` as the same text |
| KeyStreams.AllMatchTrueIff | src/main/java/com/epam/digital/data/platform/integration/ceph/service/impl/CephServiceS3Impl.java:139-140 | `allMatch` answers true exactly when every probe answered true (so also for no keys) |
| KeyStreams.AllMatchNoThrow | src/main/java/com/epam/digital/data/platform/integration/ceph/service/impl/CephServiceS3Impl.java:139-140 | when no probe threw, `allMatch` does not throw |
| KeyStreams.FirstNonTrueDecides | src/main/java/com/epam/digital/data/platform/integration/ceph/service/impl/CephServiceS3Impl.java:139-140 | the first probe that does not answer true decides `allMatch`, and no probe after it is made |
| KeyStreams.AllTrueProbesAll | src/main/java/com/epam/digital/data/platform/integration/ceph/service/impl/CephServiceS3Impl.java:139-140 | when every probe answers true, every key is probed |
| KeyStreams.AllMatchDecidedByLast | src/main/java/com/epam/digital/data/platform/integration/ceph/service/impl/CephServiceS3Impl.java:139-140 | an `allMatch` that is not true was decided by the last probe it made |
| KeyStreams.FirstThrowDecides | src/main/java/com/epam/digital/data/platform/integration/ceph/service/impl/CephServiceS3Impl.java:188-189 | collecting the metadata stops at the first call that throws, and that exception is the result |
| KeyStreams.NoThrowCollectsAll | src/main/java/com/epam/digital/data/platform/integration/ceph/service/impl/CephServiceS3Impl.java:188-189 | when no call throws, every key is fetched and the values are collected in key order |
| KeyStreams.CollectAllDecidedByLast | src/main/java/com/epam/digital/data/platform/integration/ceph/service/impl/CephServiceS3Impl.java:188-189 | a collection that threw was ended by the last call it made |
| KeyStreams.ExistAllFaultFree | src/main/java/com/epam/digital/data/platform/integration/ceph/service/impl/CephServiceS3Impl.java:139-140 | without faults the probes answer true exactly when every key is stored, and change nothing |
| KeyStreams.AllTrueMeansAllFound | src/main/java/com/epam/digital/data/platform/integration/ceph/service/impl/CephServiceS3Impl.java:182-187 | whatever the faults, the probes answer true only when every key is stored |
| KeyStreams.ExistAllFaultsExplain | src/main/java/com/epam/digital/data/platform/integration/ceph/service/impl/CephServiceS3Impl.java:139-140 | a probe stream fails only with the message of a fault on a probe it made |
| KeyStreams.MetadataFaultFree | src/main/java/com/epam/digital/data/platform/integration/ceph/service/impl/CephServiceS3Impl.java:188-189 | with every key stored and no faults, the metadata of each key is collected, in order |
| KeyStreams.ProbeAllThenFaultsExplain | src/main/java/com/epam/digital/data/platform/integration/ceph/service/impl/CephServiceS3Impl.java:182-189 | probe-all-then-fetch fails only on a fault of a call it made; a missing key is answered, never thrown |
| KeyStreams.MetadataFaultsExplain | src/main/java/com/epam/digital/data/platform/integration/ceph/service/impl/CephServiceS3Impl.java:188-189 | with every key stored, fetching the metadata fails only on a fault of a call it made |
| KeyStreams.Enumerate | src/main/java/com/epam/digital/data/platform/integration/ceph/service/impl/CephServiceS3Impl.java:128 | visits every key of the set exactly once (an iteration order of the set) |
| KeyStreams.ProbeAll | src/main/java/com/epam/digital/data/platform/integration/ceph/service/impl/CephServiceS3Impl.java:139-140 | issues `doesObjectExist` key by key, stopping after the first that is not true; returns `allMatch` of the replies |
| KeyStreams.FetchMetadata | src/main/java/com/epam/digital/data/platform/integration/ceph/service/impl/CephServiceS3Impl.java:188-189 | issues `getObjectMetadata` key by key, stopping at the first that throws; returns the collected list or that exception |
| KeyStreams.ExistAll | src/main/java/com/epam/digital/data/platform/integration/ceph/service/impl/CephServiceS3Impl.java:139-140 | the probe stream wrapped in `execute`: its result and calls are those of the `exist` step |
| KeyStreams.MetadataAll | src/main/java/com/epam/digital/data/platform/integration/ceph/service/impl/CephServiceS3Impl.java:188-189 | the metadata stream wrapped in `execute`: its result and calls are those of the metadata step |
| AmazonS3Store.ListingOfAppend | src/main/java/com/epam/digital/data/platform/integration/ceph/service/impl/CephServiceS3Impl.java:158-160 | a listing keeps the bucket's order: the listing of two runs of objects is the first run's matches followed by the second's |
| ClientSteps.ProbeFaultFree | src/main/java/com/epam/digital/data/platform/integration/ceph/service/impl/CephServiceS3Impl.java:149 | without faults a probe answers whether the key is stored |
| ClientSteps.ProbeThenGuards | src/main/java/com/epam/digital/data/platform/integration/ceph/service/impl/CephServiceS3Impl.java:74-79 | the fetch after a probe runs only when the key is stored: for a key not stored, whatever the faults, only the probe is made, the store is unchanged and any value is the empty answer; without faults a stored key gets the fetch's result |
| ClientSteps.ProbeThenFaultsExplain | src/main/java/com/epam/digital/data/platform/integration/ceph/service/impl/CephServiceS3Impl.java:74-79 | probe-then-fetch fails only on a fault of the probe or of the fetch of a stored key |
| ClientSteps.GetObjectOfStored | src/main/java/com/epam/digital/data/platform/integration/ceph/service/impl/CephServiceS3Impl.java:79 | fetching a stored object (or its text) fails only on an injected fault; without one it is that object (its decoded content) |
| ClientSteps.MapRunFaultsExplain | src/main/java/com/epam/digital/data/platform/integration/ceph/service/impl/CephServiceS3Impl.java:81 | converting a result afterwards adds no failure |
| ClientSteps.PutStreamReadsBack | src/main/java/com/epam/digital/data/platform/integration/ceph/service/impl/CephServiceS3Impl.java:111-117 | the metadata read back after a stream put has the caller's content type (octet-stream when none), the caller's user metadata and the content's length; the object is stored |
| ClientSteps.PutStreamFaultsExplain | src/main/java/com/epam/digital/data/platform/integration/ceph/service/impl/CephServiceS3Impl.java:111-117 | a stream put fails only on a fault of the put or of the read-back |
| ClientSteps.PutStringOutcome | src/main/java/com/epam/digital/data/platform/integration/ceph/service/impl/CephServiceS3Impl.java:102 | a string put fails only on its own fault; without one it stores the UTF-8 text |
| ClientSteps.DeleteOutcome | src/main/java/com/epam/digital/data/platform/integration/ceph/service/impl/CephServiceS3Impl.java:127-131 | one `deleteObjects` request naming the keys; without faults they are gone from the bucket |
| ClientSteps.ListOutcome | src/main/java/com/epam/digital/data/platform/integration/ceph/service/impl/CephServiceS3Impl.java:158-161 | a listing fails only on its own fault; without one it lists the bucket's keys that match the prefix |
| ClientSteps.ProbeFaultsExplain | src/main/java/com/epam/digital/data/platform/integration/ceph/service/impl/CephServiceS3Impl.java:149 | a probe fails only on its own fault |
| ClientSteps.Probe | src/main/java/com/epam/digital/data/platform/integration/ceph/service/impl/CephServiceS3Impl.java:74 | one `doesObjectExist` call, wrapped in `execute` |
| ClientSteps.FetchObject | src/main/java/com/epam/digital/data/platform/integration/ceph/service/impl/CephServiceS3Impl.java:79 | one `getObject` call, wrapped in `execute` |
| ClientSteps.FetchObjectAsString | src/main/java/com/epam/digital/data/platform/integration/ceph/service/impl/CephServiceS3Impl.java:93 | one `getObjectAsString` call, wrapped in `execute` |
| ClientSteps.PutString | src/main/java/com/epam/digital/data/platform/integration/ceph/service/impl/CephServiceS3Impl.java:102 | one `putObject(bucket, key, String)` call; the store gains the object unless the call threw |
| ClientSteps.PutStream | src/main/java/com/epam/digital/data/platform/integration/ceph/service/impl/CephServiceS3Impl.java:111-117 | `putObject` with the sent metadata, then `getObjectMetadata` on the store the put left; the store gains the object unless the put threw |
| ClientSteps.DeleteKeys | src/main/java/com/epam/digital/data/platform/integration/ceph/service/impl/CephServiceS3Impl.java:127-131 | one `deleteObjects` call, wrapped in `executeRunnable`; the keys are removed unless it threw |
| ClientSteps.List | src/main/java/com/epam/digital/data/platform/integration/ceph/service/impl/CephServiceS3Impl.java:158-160 | one `listObjects` call, wrapped in `execute` |
| CephServiceS3.GetReturnsStored | src/main/java/com/epam/digital/data/platform/integration/ceph/service/impl/CephServiceS3Impl.java:70-82 | without faults and with the bucket listed, `get` returns the stored object converted to `CephObject`, empty when the key is not stored, and changes nothing |
| CephServiceS3.GetAsStringReturnsText | src/main/java/com/epam/digital/data/platform/integration/ceph/service/impl/CephServiceS3Impl.java:84-96 | likewise `getAsString` returns the stored content decoded as UTF-8, empty when the key is not stored |
| CephServiceS3.PutThenGetAsString | src/main/java/com/epam/digital/data/platform/integration/ceph/service/impl/CephServiceS3Impl.java:98-104 | `put(bucket, key, text)` succeeds and `getAsString(bucket, key)` then returns the text |
| CephServiceS3.PutStreamThenGet | src/main/java/com/epam/digital/data/platform/integration/ceph/service/impl/CephServiceS3Impl.java:106-120 | a stream put returns the metadata the store kept (content type or octet-stream, user metadata, content length) and `get` then returns it with the content |
| CephServiceS3.DeleteRemoves | src/main/java/com/epam/digital/data/platform/integration/ceph/service/impl/CephServiceS3Impl.java:123-133 | `delete` succeeds, and afterwards a key exists exactly when it existed before and was not deleted |
| CephServiceS3.ExistAllAnswers | src/main/java/com/epam/digital/data/platform/integration/ceph/service/impl/CephServiceS3Impl.java:135-143 | `exist(bucket, keys)` answers true exactly when every key of the set is stored |
| CephServiceS3.ExistAnswers | src/main/java/com/epam/digital/data/platform/integration/ceph/service/impl/CephServiceS3Impl.java:145-152 | `exist(bucket, key)` answers whether the key is stored |
| CephServiceS3.KeysAnswers | src/main/java/com/epam/digital/data/platform/integration/ceph/service/impl/CephServiceS3Impl.java:154-176 | `getKeys` holds a key exactly when it is stored and starts with the prefix (every stored key without one) |
| CephServiceS3.GetMetadataAnswers | src/main/java/com/epam/digital/data/platform/integration/ceph/service/impl/CephServiceS3Impl.java:178-193 | `getMetadata` is empty when some key of the set is missing; otherwise the converted metadata of each key, in the order the set was visited |
| CephServiceS3.GetFaultsExplain | src/main/java/com/epam/digital/data/platform/integration/ceph/service/impl/CephServiceS3Impl.java:70-82 | every Communication error of `get` carries the message of a fault on a call it made |
| CephServiceS3.GetAsStringFaultsExplain | src/main/java/com/epam/digital/data/platform/integration/ceph/service/impl/CephServiceS3Impl.java:84-96 | the same for `getAsString` |
| CephServiceS3.PutFaultsExplain | src/main/java/com/epam/digital/data/platform/integration/ceph/service/impl/CephServiceS3Impl.java:98-104 | the same for `put` of a string |
| CephServiceS3.PutStreamFaultsExplain | src/main/java/com/epam/digital/data/platform/integration/ceph/service/impl/CephServiceS3Impl.java:106-120 | the same for `put` of a stream |
| CephServiceS3.DeleteFaultsExplain | src/main/java/com/epam/digital/data/platform/integration/ceph/service/impl/CephServiceS3Impl.java:123-133 | the same for `delete` |
| CephServiceS3.ExistAllFaultsExplain | src/main/java/com/epam/digital/data/platform/integration/ceph/service/impl/CephServiceS3Impl.java:135-143 | the same for `exist` of a set |
| CephServiceS3.ExistFaultsExplain | src/main/java/com/epam/digital/data/platform/integration/ceph/service/impl/CephServiceS3Impl.java:145-152 | the same for `exist` of a key |
| CephServiceS3.KeysFaultsExplain | src/main/java/com/epam/digital/data/platform/integration/ceph/service/impl/CephServiceS3Impl.java:154-176 | the same for `getKeys` |
| CephServiceS3.GetMetadataFaultsExplain | src/main/java/com/epam/digital/data/platform/integration/ceph/service/impl/CephServiceS3Impl.java:178-193 | the same for `getMetadata` |
| CephServiceS3.GetMisconfiguredIffUnknownBucket | src/main/java/com/epam/digital/data/platform/integration/ceph/service/impl/CephServiceS3Impl.java:195-203 | `get` and `getKeys` are a Misconfiguration exactly when `listBuckets` answers without the bucket; `get` changes nothing |
| CephServiceS3.SetMisconfiguredIffUnknownBucket | src/main/java/com/epam/digital/data/platform/integration/ceph/service/impl/CephServiceS3Impl.java:195-203 | the same for `exist`, `delete` and `getMetadata` over a set |
| CephServiceS3.CephServiceS3Impl.constructor | src/main/java/com/epam/digital/data/platform/integration/ceph/service/impl/CephServiceS3Impl.java:66-68 | the facade uses the client it is given |
| CephServiceS3.CephServiceS3Impl.Get | src/main/java/com/epam/digital/data/platform/integration/ceph/service/impl/CephServiceS3Impl.java:70-82 | performs `get` on the client: guard, probe, fetch only when found, convert |
| CephServiceS3.CephServiceS3Impl.GetAsString | src/main/java/com/epam/digital/data/platform/integration/ceph/service/impl/CephServiceS3Impl.java:84-96 | performs `getAsString` on the client |
| CephServiceS3.CephServiceS3Impl.Put | src/main/java/com/epam/digital/data/platform/integration/ceph/service/impl/CephServiceS3Impl.java:98-104 | performs `put` of a string; the store changes as the put does |
| CephServiceS3.CephServiceS3Impl.PutStream | src/main/java/com/epam/digital/data/platform/integration/ceph/service/impl/CephServiceS3Impl.java:106-120 | performs `put` of a stream and converts the metadata read back |
| CephServiceS3.CephServiceS3Impl.Delete | src/main/java/com/epam/digital/data/platform/integration/ceph/service/impl/CephServiceS3Impl.java:123-133 | performs `delete`, naming the set's keys in an iteration order of the set |
| CephServiceS3.CephServiceS3Impl.ExistAll | src/main/java/com/epam/digital/data/platform/integration/ceph/service/impl/CephServiceS3Impl.java:135-143 | performs `exist` over the set, in an iteration order of the set |
| CephServiceS3.CephServiceS3Impl.Exist | src/main/java/com/epam/digital/data/platform/integration/ceph/service/impl/CephServiceS3Impl.java:145-152 | performs `exist` of one key |
| CephServiceS3.CephServiceS3Impl.GetKeys | src/main/java/com/epam/digital/data/platform/integration/ceph/service/impl/CephServiceS3Impl.java:154-165 | performs `getKeys(bucket, prefix)` |
| CephServiceS3.CephServiceS3Impl.GetAllKeys | src/main/java/com/epam/digital/data/platform/integration/ceph/service/impl/CephServiceS3Impl.java:167-176 | performs `getKeys(bucket)` |
| CephServiceS3.CephServiceS3Impl.GetMetadata | src/main/java/com/epam/digital/data/platform/integration/ceph/service/impl/CephServiceS3Impl.java:178-193 | performs `getMetadata`; both streams visit the set in the same iteration order |
| CephServiceS3.PutStreamConverted | src/main/java/com/epam/digital/data/platform/integration/ceph/service/impl/CephServiceS3Impl.java:111-119 | the `execute` block of a stream put followed by `toCephObjectMetadata`: result, calls and new store are those of the put step, converted |
| CephServiceS3.ConvertedMetadata | src/main/java/com/epam/digital/data/platform/integration/ceph/service/impl/CephServiceS3Impl.java:188-192 | the metadata stream in `execute`, converted by `toCephObjectMetadataList` |
| CephServiceS3.MetadataOfAll | src/main/java/com/epam/digital/data/platform/integration/ceph/service/impl/CephServiceS3Impl.java:182-192 | `getMetadata` past the guard: the probe stream, an empty list when it is not true, otherwise the converted metadata |
| CephServiceS3.GuardedMetadata | src/main/java/com/epam/digital/data/platform/integration/ceph/service/impl/CephServiceS3Impl.java:181-192 | `getMetadata` over an enumeration of the set: the guard, then `MetadataOfAll`; equal to `GetMetadataRun` |
| S3ObjectCephService.PutThenGet | src/main/java/com/epam/digital/data/platform/integration/ceph/service/impl/S3ObjectCephServiceImpl.java:51-79 | `put` returns the metadata the store kept (content type or octet-stream, user metadata, content length), and `get` then returns the object with it and the content |
| S3ObjectCephService.GetReturnsStored | src/main/java/com/epam/digital/data/platform/integration/ceph/service/impl/S3ObjectCephServiceImpl.java:67-79 | without faults `get` returns exactly the stored object, empty when the key is not stored |
| S3ObjectCephService.GetMetadataAnswers | src/main/java/com/epam/digital/data/platform/integration/ceph/service/impl/S3ObjectCephServiceImpl.java:81-95 | `getMetadata` is present exactly when every key of the list is stored, and then holds each key's metadata in list order |
| S3ObjectCephService.DeleteRemoves | src/main/java/com/epam/digital/data/platform/integration/ceph/service/impl/S3ObjectCephServiceImpl.java:97-107 | `delete` succeeds, and afterwards a key is stored exactly when it was before and is not in the list |
| S3ObjectCephService.ExistAnswers | src/main/java/com/epam/digital/data/platform/integration/ceph/service/impl/S3ObjectCephServiceImpl.java:109-117 | `exist` answers true exactly when every key of the list is stored |
| S3ObjectCephService.KeysAnswers | src/main/java/com/epam/digital/data/platform/integration/ceph/service/impl/S3ObjectCephServiceImpl.java:119-130 | `getKeys` is the list of the listing's keys, one per summary in listing order with no de-duplication; it holds a key exactly when it is stored and starts with the prefix, with no more entries than the bucket has objects |
| S3ObjectCephService.PutFaultsExplain | src/main/java/com/epam/digital/data/platform/integration/ceph/service/impl/S3ObjectCephServiceImpl.java:51-65 | every Communication error of `put` carries the message of a fault on a call it made |
| S3ObjectCephService.GetFaultsExplain | src/main/java/com/epam/digital/data/platform/integration/ceph/service/impl/S3ObjectCephServiceImpl.java:67-79 | the same for `get` |
| S3ObjectCephService.GetMetadataFaultsExplain | src/main/java/com/epam/digital/data/platform/integration/ceph/service/impl/S3ObjectCephServiceImpl.java:81-95 | the same for `getMetadata` |
| S3ObjectCephService.DeleteFaultsExplain | src/main/java/com/epam/digital/data/platform/integration/ceph/service/impl/S3ObjectCephServiceImpl.java:97-107 | the same for `delete`; a failing `delete` leaves the store as it was, and a successful one leaves none of the listed keys in the bucket |
| S3ObjectCephService.ExistFaultsExplain | src/main/java/com/epam/digital/data/platform/integration/ceph/service/impl/S3ObjectCephServiceImpl.java:109-117 | the same for `exist` |
| S3ObjectCephService.KeysFaultsExplain | src/main/java/com/epam/digital/data/platform/integration/ceph/service/impl/S3ObjectCephServiceImpl.java:119-130 | the same for `getKeys` |
| S3ObjectCephService.CollectKeys | src/main/java/com/epam/digital/data/platform/integration/ceph/service/impl/S3ObjectCephServiceImpl.java:124-125 | the listing's keys, one per summary, in listing order |
| S3ObjectCephService.S3ObjectCephServiceImpl.constructor | src/main/java/com/epam/digital/data/platform/integration/ceph/service/impl/S3ObjectCephServiceImpl.java:44-49 | the facade keeps the configured bucket and the client |
| S3ObjectCephService.S3ObjectCephServiceImpl.Put | src/main/java/com/epam/digital/data/platform/integration/ceph/service/impl/S3ObjectCephServiceImpl.java:51-65 | performs `put` on the configured bucket; the store changes as the put does |
| S3ObjectCephService.S3ObjectCephServiceImpl.Get | src/main/java/com/epam/digital/data/platform/integration/ceph/service/impl/S3ObjectCephServiceImpl.java:67-79 | performs `get` on the configured bucket |
| S3ObjectCephService.S3ObjectCephServiceImpl.GetMetadata | src/main/java/com/epam/digital/data/platform/integration/ceph/service/impl/S3ObjectCephServiceImpl.java:81-95 | performs `getMetadata` on the configured bucket |
| S3ObjectCephService.S3ObjectCephServiceImpl.Delete | src/main/java/com/epam/digital/data/platform/integration/ceph/service/impl/S3ObjectCephServiceImpl.java:97-107 | performs `delete` on the configured bucket |
| S3ObjectCephService.S3ObjectCephServiceImpl.Exist | src/main/java/com/epam/digital/data/platform/integration/ceph/service/impl/S3ObjectCephServiceImpl.java:109-117 | performs `exist` on the configured bucket |
| S3ObjectCephService.S3ObjectCephServiceImpl.GetKeys | src/main/java/com/epam/digital/data/platform/integration/ceph/service/impl/S3ObjectCephServiceImpl.java:119-130 | performs `getKeys` on the configured bucket, keys in listing order |
| S3ObjectCephService.SomeMetadata | src/main/java/com/epam/digital/data/platform/integration/ceph/service/impl/S3ObjectCephServiceImpl.java:91-92 | the metadata stream in `execute`, wrapped in `Optional.of` |
| S3ObjectCephService.MetadataIfAll | src/main/java/com/epam/digital/data/platform/integration/ceph/service/impl/S3ObjectCephServiceImpl.java:85-94 | `getMetadata` past the guard: the probe stream, empty when it is not true, otherwise the metadata |
| S3ObjectCephService.GuardedMetadata | src/main/java/com/epam/digital/data/platform/integration/ceph/service/impl/S3ObjectCephServiceImpl.java:84-94 | `getMetadata` on a given bucket: the guard, then `MetadataIfAll`; equal to `GetMetadataRun` |
| MetricsCollector.ExtractOperationInfo | src/main/java/com/epam/digital/data/platform/integration/ceph/metric/MicrometerMetricsCollector.java:104-122 | the five recognised request types give their simple class name and bucket (a copy its source bucket); any other type, or no original request, gives nothing |
| MetricsCollector.CounterOf | src/main/java/com/epam/digital/data/platform/integration/ceph/metric/MicrometerMetricsCollector.java:53-55 | a timing counter's value when it was set, nothing otherwise |
| MetricsCollector.LongValue | src/main/java/com/epam/digital/data/platform/integration/ceph/metric/MicrometerMetricsCollector.java:75 | `longValue()` of the time: rounded toward zero, saturating at the bounds of a Java `long` |
| MetricsCollector.ClientExecuteTimeTimer | src/main/java/com/epam/digital/data/platform/integration/ceph/metric/MicrometerMetricsCollector.java:71 | the timer of `ClientExecuteTime` is named `aws_sdk_latency.clientexecutetime` |
| MetricsCollector.GaugeSetLastValue | src/main/java/com/epam/digital/data/platform/integration/ceph/metric/MicrometerMetricsCollector.java:88-97 | `setGauge` with a value makes that gauge hold it and keeps every other gauge; with none it changes nothing |
| MetricsCollector.GaugeSetRegistersOnce | src/main/java/com/epam/digital/data/platform/integration/ceph/metric/MicrometerMetricsCollector.java:91-96 | `setGauge` registers a gauge only the first time its name is set |
| MetricsCollector.PoolGaugesSetRegistersOnce | src/main/java/com/epam/digital/data/platform/integration/ceph/metric/MicrometerMetricsCollector.java:53-55 | setting the three pool gauges keeps each registered once and no other gauge |
| MetricsCollector.ObservedGaugesArePooled | src/main/java/com/epam/digital/data/platform/integration/ceph/metric/MicrometerMetricsCollector.java:57-64 | after the pool gauges, a collection changes no gauge and no registration |
| MetricsCollector.NoTimingNoChange | src/main/java/com/epam/digital/data/platform/integration/ceph/metric/MicrometerMetricsCollector.java:48-50 | no request, or no timing info, changes nothing and does not throw |
| MetricsCollector.PoolGaugesLastValueWins | src/main/java/com/epam/digital/data/platform/integration/ceph/metric/MicrometerMetricsCollector.java:53-55 | with timing info each pool gauge ends at its pool counter's value, or is kept when the counter is absent, whatever the request's type |
| MetricsCollector.UnclassifiedOnlyGauges | src/main/java/com/epam/digital/data/platform/integration/ceph/metric/MicrometerMetricsCollector.java:57-58 | an unrecognised request updates only the gauges: no counter, no timer, no exception |
| MetricsCollector.ExceptionCounted | src/main/java/com/epam/digital/data/platform/integration/ceph/metric/MicrometerMetricsCollector.java:78-86 | for a recognised request the counter tagged with its bucket and operation grows by the "Exception" count when present; no other counter changes |
| MetricsCollector.LatencyTimed | src/main/java/com/epam/digital/data/platform/integration/ceph/metric/MicrometerMetricsCollector.java:67-76 | for a recognised request the client execution time is recorded on the tagged timer when known, nothing when unknown, and a missing sub-measurement throws |
| MetricsCollector.ObservedKeepsGauges | src/main/java/com/epam/digital/data/platform/integration/ceph/metric/MicrometerMetricsCollector.java:43-55 | one collection keeps the gauges to the three pool gauges, each registered once |
| MetricsCollector.ObservedAllKeepsGauges | src/main/java/com/epam/digital/data/platform/integration/ceph/metric/MicrometerMetricsCollector.java:43-55 | any sequence of collections keeps that invariant |
| MetricsCollector.FromEmptyRegisteredOnce | src/main/java/com/epam/digital/data/platform/integration/ceph/metric/MicrometerMetricsCollector.java:43 | from an empty registry, every gauge is a pool gauge registered exactly once |
| MetricsCollector.MicrometerMetricsCollector.constructor | src/main/java/com/epam/digital/data/platform/integration/ceph/metric/MicrometerMetricsCollector.java:39-43 | starts with no gauges, registrations, counters or timer records, which satisfies the collector invariant (only pool gauges, each registered once) |
| MetricsCollector.MicrometerMetricsCollector.SetGauge | src/main/java/com/epam/digital/data/platform/integration/ceph/metric/MicrometerMetricsCollector.java:88-97 | updates the gauge map in place as `setGauge` does |
| MetricsCollector.MicrometerMetricsCollector.IncrementCounter | src/main/java/com/epam/digital/data/platform/integration/ceph/metric/MicrometerMetricsCollector.java:78-86 | adds the value to the tagged counter, nothing when there is none |
| MetricsCollector.MicrometerMetricsCollector.RecordLatency | src/main/java/com/epam/digital/data/platform/integration/ceph/metric/MicrometerMetricsCollector.java:67-76 | records the sub-measurement's known time on the tagged timer, or throws when it is missing |
| MetricsCollector.MicrometerMetricsCollector.CollectMetrics | src/main/java/com/epam/digital/data/platform/integration/ceph/metric/MicrometerMetricsCollector.java:46-65 | performs `collectMetrics`: early returns, the three gauges, then counter and timer for recognised requests; keeps the collector invariant (only pool gauges, each registered once) |

## Left out

- The network, HTTP, retries and the SDK's internals are left out. The client is a store value with injectable per-call faults, so any client call may throw with any message. Every SDK failure reduces to that.
- The builder constructor of `CephServiceS3Impl` (`CephServiceS3Impl.java:52-64`: credentials, endpoint, path-style access, client configuration) configures the SDK only. The model starts from an already built client.
- Logging (`log.info`/`log.debug`/`log.warn`) is left out; it has no effect on results.
- Input streams are modelled as their drained content, a `seq<Byte>`. The SDK reading, buffering and closing the streams is not modelled. `CephObject.content` holds the stored bytes.
- Listing is one call that returns every matching key. The 1000-key page limit of `listObjects` and truncated listings are not modelled, and neither does the source handle them.
- CephServiceS3.DeleteRemoves, S3ObjectCephService.DeleteRemoves and AmazonS3Store.AmazonS3.DeleteObjects: the model store accepts a batch of any size. S3 and Ceph's gateway reject a `deleteObjects` request with no keys (MalformedXML) or with more than 1000 keys. So `delete` of an empty set or list, or of more than 1000 keys, is a Communication error against a real store, while the model proves it succeeds. The source does not split or check batches.
- AmazonS3Store.StreamObject, CephServiceS3.PutStreamThenGet and S3ObjectCephService.PutThenGet: user-metadata keys are stored exactly as the caller gave them. S3 returns them in lower case, so a key such as `FileName` reads back as `filename` against a real store.
- AmazonS3Store.Upsert: a newly stored key goes at the end of the bucket's listing order, and an overwritten key keeps its place. S3 and Ceph list keys in ascending UTF-8 binary order. So the order of `S3ObjectCephService.KeysAnswers`'s list matches a real store only when keys were first stored in that order; its membership statement holds regardless.
- `deleteObjects` is atomic in the model: it removes all the keys, or it throws as a whole. Partial per-key failures (`MultiObjectDeleteException`) are one whole-call fault.
- Utf8.DecodeEncode and CephServiceS3.PutThenGetAsString: the round trip holds for text without unpaired surrogates, which are the only strings a Dafny `string` can hold. A Java `String` can carry a lone surrogate, and `getBytes(UTF_8)` replaces it with `?`, so such text does not read back unchanged. That case is not modelled.
- `Utf8.Decode`: each malformed byte decodes to U+FFFD and consumes one byte. This is simpler than the JDK decoder's exact replacement rules. The round trip of well-formed text is exact.
- Null arguments are not modelled, except `contentType`, which is an `Option` because the SDK then substitutes `application/octet-stream`. A null key, bucket name, map or stream would throw inside the SDK. The model's fault injection covers that.
- The iteration order of a Java `Set` is unspecified. The model takes it as a ghost enumeration `order` of the set. `CephServiceS3.GetMetadataAnswers` states its list in that order, and `CephServiceS3Impl.GetMetadata` uses one order for both streams, as one `HashSet` iterates twice.
- The `CephServiceS3Impl` facade's `getKeys` returns a `Set`. The model states its contents as a set of keys (`KeySet`); duplicates and order are irrelevant there.
- `MetricsCollector.ExtractOperationInfo` classifies the request by its exact class. Subclasses of the five SDK request classes (which `instanceof` would accept under their own simple name) are not modelled.
- `MetricsCollector.MicrometerMetricsCollector.IncrementCounter`: Micrometer counters take a `double`. The model adds the integral counter value the SDK reports, as an `int`.
- Micrometer registry internals are not modelled: meter de-duplication by name and tags is a map keyed by `MeterId`, and the timer keeps a list of recorded milliseconds. The thread safety of `ConcurrentHashMap` and `AtomicLong` is not modelled, since calls are sequential in the model.
- `MetricsCollector.LowerAscii` lowercases only `A`–`Z`. `String.toLowerCase()` also folds other letters, but the only metric name passed is `ClientExecuteTime`, whose result `MetricsCollector.ClientExecuteTimeTimer` states.
- The `response` parameter of `collectMetrics` is unused by the source and is omitted.
- A null `AWSRequestMetrics` and a null `TimingInfo` both lead to the same early return, and both are modelled as an absent timing info.

## Notes on the code

- The collector's metric names are `aws_sdk_pool_available`, `aws_sdk_pool_leased`, `aws_sdk_pool_pending`, `aws_sdk_exception_count` and `aws_sdk_latency.clientexecutetime` (`MicrometerMetricsCollector.java:53-71`).
- A recognised request whose timing info lacks the `ClientExecuteTime` sub-measurement throws a `NullPointerException` after the gauges and the counter were updated. The cause is that `getTimeTakenMillisIfKnown()` is called on `getSubMeasurement(...)` without a null check (`MicrometerMetricsCollector.java:99-102`). This is modelled as `Completion.ThrewNullPointer` and stated by `MetricsCollector.LatencyTimed`.
