/**
 * The per-key stream pipelines both facades run over a key collection:
 * `keys.stream().allMatch(k -> doesObjectExist(bucket, k))` and
 * `keys.stream().map(k -> getObjectMetadata(bucket, k)).collect(toList())`.
 * A client call that throws inside the pipeline ends it at once.
 */
module KeyStreams {
  import opened CephModel
  import opened AmazonS3Store
  import opened BaseCephService

  predicate Distinct(keys: seq<string>) {
    forall i, j :: 0 <= i < j < |keys| ==> keys[i] != keys[j]
  }

  /** `order` lists every key of `keys` exactly once: one iteration order of the set. */
  ghost predicate IsEnumeration(order: seq<string>, keys: set<string>) {
    Distinct(order) && |order| == |keys| && forall k :: k in keys <==> k in order
  }

  /**
   * `allMatch` over the replies of the probes, in stream order: true when every probe
   * answered true (so also for no keys), false at the first probe that answered false,
   * and the first exception when a probe threw before any false.
   */
  function AllMatch(replies: seq<Outcome<bool>>): Outcome<bool> {
    if replies == [] then Returned(true)
    else if replies[0] == Returned(true) then AllMatch(replies[1..])
    else replies[0]
  }

  /** How many probes `allMatch` makes: up to and including the first that is not true. */
  function Probed(replies: seq<Outcome<bool>>): (n: nat)
    ensures n <= |replies|
  {
    if replies == [] then 0
    else if replies[0] == Returned(true) then 1 + Probed(replies[1..])
    else 1
  }

  /** When the probes before `i` answered true and probe `i` did not, probe `i` decides and is the last. */
  lemma {:induction false} FirstNonTrueDecides(replies: seq<Outcome<bool>>, i: nat)
    requires i < |replies| && replies[i] != Returned(true)
    requires forall j :: 0 <= j < i ==> replies[j] == Returned(true)
    ensures AllMatch(replies) == replies[i]
    ensures Probed(replies) == i + 1
  {
    if i > 0 {
      FirstNonTrueDecides(replies[1..], i - 1);
    }
  }

  /** When every probe answered true, all of them were made. */
  lemma {:induction false} AllTrueProbesAll(replies: seq<Outcome<bool>>)
    requires forall j :: 0 <= j < |replies| ==> replies[j] == Returned(true)
    ensures Probed(replies) == |replies|
  {
    if replies != [] {
      AllTrueProbesAll(replies[1..]);
    }
  }

  /** `allMatch` answers true exactly when every probe answered true. */
  lemma {:induction false} AllMatchTrueIff(replies: seq<Outcome<bool>>)
    ensures AllMatch(replies) == Returned(true) <==> forall i :: 0 <= i < |replies| ==> replies[i] == Returned(true)
  {
    if replies != [] {
      AllMatchTrueIff(replies[1..]);
      if replies[0] == Returned(true) {
        assert forall i :: 1 <= i < |replies| ==> replies[i] == replies[1..][i - 1];
      }
    }
  }

  /** When no probe threw, neither does `allMatch`. */
  lemma {:induction false} AllMatchNoThrow(replies: seq<Outcome<bool>>)
    requires forall i :: 0 <= i < |replies| ==> replies[i].Returned?
    ensures AllMatch(replies).Returned?
  {
    if replies != [] && replies[0] == Returned(true) {
      AllMatchNoThrow(replies[1..]);
    }
  }

  /**
   * `map(...).collect(toList())` over the replies of the calls: every value in order,
   * or the first exception.
   */
  function CollectAll<T>(replies: seq<Outcome<T>>): Outcome<seq<T>> {
    if replies == [] then Returned([])
    else if replies[0].Threw? then Threw(replies[0].message)
    else
      var rest := CollectAll(replies[1..]);
      if rest.Threw? then rest else Returned([replies[0].value] + rest.value)
  }

  /** How many calls the collection makes: up to and including the first that throws. */
  function Collected<T>(replies: seq<Outcome<T>>): (n: nat)
    ensures n <= |replies|
  {
    if replies == [] then 0
    else if replies[0].Returned? then 1 + Collected(replies[1..])
    else 1
  }

  lemma {:induction false} FirstThrowDecides<T>(replies: seq<Outcome<T>>, i: nat)
    requires i < |replies| && replies[i].Threw?
    requires forall j :: 0 <= j < i ==> replies[j].Returned?
    ensures CollectAll(replies) == Threw(replies[i].message)
    ensures Collected(replies) == i + 1
  {
    if i > 0 {
      FirstThrowDecides(replies[1..], i - 1);
    }
  }

  /** When no call threw, all of them were made and their values are collected in order. */
  lemma {:induction false} NoThrowCollectsAll<T>(replies: seq<Outcome<T>>, values: seq<T>)
    requires |values| == |replies|
    requires forall j :: 0 <= j < |replies| ==> replies[j] == Returned(values[j])
    ensures CollectAll(replies) == Returned(values)
    ensures Collected(replies) == |replies|
  {
    if replies != [] {
      NoThrowCollectsAll(replies[1..], values[1..]);
      assert values == [values[0]] + values[1..];
    }
  }

  /** What `doesObjectExist` answers for each key, in order. */
  function ExistsReplies(st: Store, bucket: string, keys: seq<string>): (r: seq<Outcome<bool>>)
    ensures |r| == |keys|
  {
    seq(|keys|, i requires 0 <= i < |keys| => DoesObjectExistReply(st, bucket, keys[i]))
  }

  lemma ExistsReplyAt(st: Store, bucket: string, keys: seq<string>, i: nat)
    requires i < |keys|
    ensures ExistsReplies(st, bucket, keys)[i] == DoesObjectExistReply(st, bucket, keys[i])
  {
  }

  /** What `getObjectMetadata` answers for each key, in order. */
  function MetadataReplies(st: Store, bucket: string, keys: seq<string>): (r: seq<Outcome<ObjectMetadata>>)
    ensures |r| == |keys|
  {
    seq(|keys|, i requires 0 <= i < |keys| => GetObjectMetadataReply(st, bucket, keys[i]))
  }

  lemma MetadataReplyAt(st: Store, bucket: string, keys: seq<string>, i: nat)
    requires i < |keys|
    ensures MetadataReplies(st, bucket, keys)[i] == GetObjectMetadataReply(st, bucket, keys[i])
  {
  }

  function ProbeCalls(bucket: string, keys: seq<string>): (calls: seq<Call>)
    ensures |calls| == |keys|
  {
    seq(|keys|, i requires 0 <= i < |keys| => Call.DoesObjectExist(bucket, keys[i]))
  }

  function MetadataCalls(bucket: string, keys: seq<string>): (calls: seq<Call>)
    ensures |calls| == |keys|
  {
    seq(|keys|, i requires 0 <= i < |keys| => Call.GetObjectMetadata(bucket, keys[i]))
  }

  lemma ProbeCallAt(bucket: string, keys: seq<string>, i: nat)
    requires i < |keys|
    ensures ProbeCalls(bucket, keys)[i] == Call.DoesObjectExist(bucket, keys[i])
  {
  }

  lemma MetadataCallAt(bucket: string, keys: seq<string>, i: nat)
    requires i < |keys|
    ensures MetadataCalls(bucket, keys)[i] == Call.GetObjectMetadata(bucket, keys[i])
  {
  }

  lemma ProbeCallsExtend(bucket: string, keys: seq<string>, i: nat)
    requires i < |keys|
    ensures ProbeCalls(bucket, keys[..i + 1]) == ProbeCalls(bucket, keys[..i]) + [Call.DoesObjectExist(bucket, keys[i])]
  {
    var longer, shorter := ProbeCalls(bucket, keys[..i + 1]), ProbeCalls(bucket, keys[..i]) + [Call.DoesObjectExist(bucket, keys[i])];
    assert |longer| == |shorter|;
    forall j | 0 <= j < |longer| ensures longer[j] == shorter[j] {
      if j < i { assert keys[..i + 1][j] == keys[..i][j]; }
    }
  }

  lemma MetadataCallsExtend(bucket: string, keys: seq<string>, i: nat)
    requires i < |keys|
    ensures MetadataCalls(bucket, keys[..i + 1]) == MetadataCalls(bucket, keys[..i]) + [Call.GetObjectMetadata(bucket, keys[i])]
  {
    var longer, shorter := MetadataCalls(bucket, keys[..i + 1]), MetadataCalls(bucket, keys[..i]) + [Call.GetObjectMetadata(bucket, keys[i])];
    assert |longer| == |shorter|;
    forall j | 0 <= j < |longer| ensures longer[j] == shorter[j] {
      if j < i { assert keys[..i + 1][j] == keys[..i][j]; }
    }
  }

  /** A probe stream that did not answer true was decided by its last probe. */
  lemma {:induction false} AllMatchDecidedByLast(replies: seq<Outcome<bool>>)
    requires AllMatch(replies) != Returned(true)
    ensures 0 < Probed(replies) && replies[Probed(replies) - 1] == AllMatch(replies)
  {
    if replies[0] == Returned(true) {
      AllMatchDecidedByLast(replies[1..]);
    }
  }

  /** A collection that threw was ended by its last call. */
  lemma {:induction false} CollectAllDecidedByLast<T>(replies: seq<Outcome<T>>)
    requires CollectAll(replies).Threw?
    ensures 0 < Collected(replies) && replies[Collected(replies) - 1] == Threw(CollectAll(replies).message)
  {
    if replies[0].Returned? {
      CollectAllDecidedByLast(replies[1..]);
    }
  }

  /**
   * `exist(keys)` past the guard: the probes wrapped in `execute`. The store is left as it was.
   */
  function ExistAllStep(st: Store, bucket: string, keys: seq<string>): Run<bool> {
    var replies := ExistsReplies(st, bucket, keys);
    Run(Execute(AllMatch(replies)), ProbeCalls(bucket, keys[..Probed(replies)]), st)
  }

  /** The metadata of every key, fetched in order and wrapped in `execute`. */
  function MetadataStep(st: Store, bucket: string, keys: seq<string>): Run<seq<ObjectMetadata>> {
    var replies := MetadataReplies(st, bucket, keys);
    Run(Execute(CollectAll(replies)), MetadataCalls(bucket, keys[..Collected(replies)]), st)
  }

  lemma ExistsReplyNoFault(st: Store, bucket: string, keys: seq<string>, i: nat)
    requires NoFaults(st) && i < |keys|
    ensures ExistsReplies(st, bucket, keys)[i] == Returned(Find(st, bucket, keys[i]).Some?)
  {
    ExistsReplyAt(st, bucket, keys, i);
  }

  /**
   * The shape of `getMetadata`: the probes first; `absent` when one answered false;
   * otherwise `present`, run from the same store.
   */
  function ProbeAllThen<T>(st: Store, bucket: string, keys: seq<string>, absent: T, present: Run<T>): Run<T> {
    var probe := ExistAllStep(st, bucket, keys);
    if probe.result.IsFailure() then Run(probe.result.PropagateFailure(), probe.calls, st)
    else if !probe.result.value then Run(Ok(absent), probe.calls, st)
    else Run(present.result, probe.calls + present.calls, present.after)
  }

  /** The probes answered true for every key exactly when every key is stored (faults aside). */
  lemma ExistAllFaultFree(st: Store, bucket: string, keys: seq<string>)
    requires NoFaults(st)
    ensures ExistAllStep(st, bucket, keys).result.Ok?
    ensures ExistAllStep(st, bucket, keys).result.value <==> forall i :: 0 <= i < |keys| ==> Find(st, bucket, keys[i]).Some?
    ensures ExistAllStep(st, bucket, keys).after == st
  {
    var replies := ExistsReplies(st, bucket, keys);
    assert ExistAllStep(st, bucket, keys).result == Execute(AllMatch(replies));
    forall i | 0 <= i < |replies| ensures replies[i] == Returned(Find(st, bucket, keys[i]).Some?) {
      ExistsReplyNoFault(st, bucket, keys, i);
    }
    AllMatchTrueIff(replies);
    AllMatchNoThrow(replies);
    if !forall i :: 0 <= i < |keys| ==> Find(st, bucket, keys[i]).Some? {
      var i :| 0 <= i < |keys| && Find(st, bucket, keys[i]).None?;
      assert replies[i] != Returned(true);
      assert AllMatch(replies) != Returned(true);
      assert forall j :: 0 <= j < |replies| ==> replies[j].Returned?;
      assert AllMatch(replies).Returned?;
    } else {
      assert forall j :: 0 <= j < |replies| ==> replies[j] == Returned(true);
      assert AllMatch(replies) == Returned(true);
    }
  }

  /** All probes answered true, whatever the faults, only when every key is stored. */
  lemma AllTrueMeansAllFound(st: Store, bucket: string, keys: seq<string>)
    requires ExistAllStep(st, bucket, keys).result == Ok(true)
    ensures forall i :: 0 <= i < |keys| ==> Find(st, bucket, keys[i]).Some?
  {
    var replies := ExistsReplies(st, bucket, keys);
    AllMatchTrueIff(replies);
    forall i | 0 <= i < |keys| ensures Find(st, bucket, keys[i]).Some? {
      assert replies[i] == Returned(true);
      ExistsReplyAt(st, bucket, keys, i);
    }
  }

  /** A probe stream fails only on an injected fault of one of the probes it made. */
  lemma ExistAllFaultsExplain(st: Store, bucket: string, keys: seq<string>)
    ensures FaultsExplain(st, ExistAllStep(st, bucket, keys))
  {
    var replies := ExistsReplies(st, bucket, keys);
    var run := ExistAllStep(st, bucket, keys);
    if run.result.Communication? {
      AllMatchDecidedByLast(replies);
      var n := Probed(replies);
      ExistsReplyAt(st, bucket, keys, n - 1);
      ProbeCallAt(bucket, keys[..n], n - 1);
      assert run.calls[n - 1] == Call.DoesObjectExist(bucket, keys[n - 1]);
    }
  }

  /** With every key stored and no faults, the metadata of each key is collected in order. */
  lemma MetadataFaultFree(st: Store, bucket: string, keys: seq<string>)
    requires NoFaults(st)
    requires forall i :: 0 <= i < |keys| ==> Find(st, bucket, keys[i]).Some?
    ensures MetadataStep(st, bucket, keys).result ==
              Ok(seq(|keys|, i requires 0 <= i < |keys| => Find(st, bucket, keys[i]).value.metadata))
  {
    var replies := MetadataReplies(st, bucket, keys);
    var expected := seq(|keys|, i requires 0 <= i < |keys| => Find(st, bucket, keys[i]).value.metadata);
    forall j | 0 <= j < |replies| ensures replies[j].Returned? && replies[j].value == expected[j] {
      MetadataReplyAt(st, bucket, keys, j);
    }
    NoThrowCollectsAll(replies, expected);
  }

  /** `present` runs only when every key is stored, and a failure comes from an injected fault. */
  lemma ProbeAllThenFaultsExplain<T>(st: Store, bucket: string, keys: seq<string>, absent: T, present: Run<T>)
    requires (forall i :: 0 <= i < |keys| ==> Find(st, bucket, keys[i]).Some?) ==> FaultsExplain(st, present)
    ensures FaultsExplain(st, ProbeAllThen(st, bucket, keys, absent, present))
  {
    var run := ProbeAllThen(st, bucket, keys, absent, present);
    var probe := ExistAllStep(st, bucket, keys);
    if run.result.Communication? {
      if probe.result.IsFailure() {
        ExistAllFaultsExplain(st, bucket, keys);
        var i :| 0 <= i < |probe.calls| && probe.calls[i] in st.faults && st.faults[probe.calls[i]] == probe.result.message;
        assert run.calls[i] == probe.calls[i];
      } else {
        AllTrueMeansAllFound(st, bucket, keys);
        var i :| 0 <= i < |present.calls| && present.calls[i] in st.faults && st.faults[present.calls[i]] == present.result.message;
        assert run.calls[|probe.calls| + i] == present.calls[i];
      }
    }
  }

  /** When every key is stored, fetching their metadata fails only on an injected fault. */
  lemma MetadataFaultsExplain(st: Store, bucket: string, keys: seq<string>)
    requires forall i :: 0 <= i < |keys| ==> Find(st, bucket, keys[i]).Some?
    ensures FaultsExplain(st, MetadataStep(st, bucket, keys))
  {
    var replies := MetadataReplies(st, bucket, keys);
    var run := MetadataStep(st, bucket, keys);
    if run.result.Communication? {
      CollectAllDecidedByLast(replies);
      var n := Collected(replies);
      var call := Call.GetObjectMetadata(bucket, keys[n - 1]);
      MetadataReplyAt(st, bucket, keys, n - 1);
      assert Find(st, bucket, keys[n - 1]).Some?;
      assert replies[n - 1] == Reply(st, call, Returned(Find(st, bucket, keys[n - 1]).value.metadata));
      assert call in st.faults && st.faults[call] == run.result.message;
      MetadataCallAt(bucket, keys[..n], n - 1);
      assert run.calls[n - 1] == call;
    }
  }

  /** One iteration order of a set, as a stream over a `Set` visits it; the model does not fix which. */
  method Enumerate(keys: set<string>) returns (order: seq<string>)
    ensures IsEnumeration(order, keys)
  {
    order := [];
    var remaining := keys;
    while remaining != {}
      invariant Distinct(order)
      invariant forall k :: k in order ==> k !in remaining
      invariant forall k :: k in keys <==> k in remaining || k in order
      invariant |order| + |remaining| == |keys|
      decreases |remaining|
    {
      var k :| k in remaining;
      order := order + [k];
      remaining := remaining - {k};
    }
  }

  /** `keys.stream().allMatch(k -> doesObjectExist(bucket, k))`, issuing the probes one by one. */
  method ProbeAll(s3: AmazonS3, bucket: string, keys: seq<string>) returns (r: Outcome<bool>)
    modifies s3`log
    ensures r == AllMatch(ExistsReplies(s3.store, bucket, keys))
    ensures s3.log == old(s3.log) + ProbeCalls(bucket, keys[..Probed(ExistsReplies(s3.store, bucket, keys))])
  {
    ghost var replies := ExistsReplies(s3.store, bucket, keys);
    var i := 0;
    while i < |keys|
      invariant i <= |keys|
      invariant s3.log == old(s3.log) + ProbeCalls(bucket, keys[..i])
      invariant forall j :: 0 <= j < i ==> replies[j] == Returned(true)
    {
      var probe := s3.DoesObjectExist(bucket, keys[i]);
      ProbeCallsExtend(bucket, keys, i);
      ExistsReplyAt(s3.store, bucket, keys, i);
      assert probe == replies[i];
      if probe != Returned(true) {
        FirstNonTrueDecides(replies, i);
        return probe;
      }
      i := i + 1;
    }
    AllTrueProbesAll(replies);
    AllMatchTrueIff(replies);
    assert keys[..i] == keys;
    r := Returned(true);
  }

  lemma ExtendFetched<T>(replies: seq<Outcome<T>>, fetched: seq<T>, v: T)
    requires |fetched| < |replies| && replies[|fetched|] == Returned(v)
    requires forall j :: 0 <= j < |fetched| ==> replies[j] == Returned(fetched[j])
    ensures forall j :: 0 <= j < |fetched| + 1 ==> replies[j] == Returned((fetched + [v])[j])
  {
  }

  /** `keys.stream().map(k -> getObjectMetadata(bucket, k)).collect(toList())`. */
  method FetchMetadata(s3: AmazonS3, bucket: string, keys: seq<string>) returns (r: Outcome<seq<ObjectMetadata>>)
    modifies s3`log
    ensures r == CollectAll(MetadataReplies(s3.store, bucket, keys))
    ensures s3.log == old(s3.log) + MetadataCalls(bucket, keys[..Collected(MetadataReplies(s3.store, bucket, keys))])
  {
    ghost var replies := MetadataReplies(s3.store, bucket, keys);
    var fetched: seq<ObjectMetadata> := [];
    var i := 0;
    while i < |keys|
      invariant i <= |keys| && |fetched| == i
      invariant forall j :: 0 <= j < i ==> replies[j] == Returned(fetched[j])
      invariant s3.log == old(s3.log) + MetadataCalls(bucket, keys[..i])
    {
      var reply := s3.GetObjectMetadata(bucket, keys[i]);
      MetadataCallsExtend(bucket, keys, i);
      MetadataReplyAt(s3.store, bucket, keys, i);
      if reply.Threw? {
        FirstThrowDecides(replies, i);
        assert MetadataReplies(s3.store, bucket, keys) == replies;
        return Threw(reply.message);
      }
      ExtendFetched(replies, fetched, reply.value);
      fetched := fetched + [reply.value];
      i := i + 1;
    }
    NoThrowCollectsAll(replies, fetched);
    assert keys[..i] == keys;
    assert MetadataReplies(s3.store, bucket, keys) == replies;
    r := Returned(fetched);
  }

  /** `exist(keys)` past the guard, on the client: the probes, wrapped in `execute`. */
  method ExistAll(s3: AmazonS3, bucket: string, keys: seq<string>) returns (r: Result<bool>)
    modifies s3`log
    ensures r == ExistAllStep(s3.store, bucket, keys).result
    ensures s3.log == old(s3.log) + ExistAllStep(s3.store, bucket, keys).calls
  {
    var all := ProbeAll(s3, bucket, keys);
    r := Execute(all);
  }

  /** The metadata of every key, on the client, wrapped in `execute`. */
  method MetadataAll(s3: AmazonS3, bucket: string, keys: seq<string>) returns (r: Result<seq<ObjectMetadata>>)
    modifies s3`log
    ensures r == MetadataStep(s3.store, bucket, keys).result
    ensures s3.log == old(s3.log) + MetadataStep(s3.store, bucket, keys).calls
  {
    var fetched := FetchMetadata(s3, bucket, keys);
    r := Execute(fetched);
  }
}
