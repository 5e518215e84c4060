/**
 * `MicrometerMetricsCollector`: the hook the object-store client calls after each
 * request. It copies the connection-pool counters of the request's timing data into
 * three gauges, then, for the five request types it recognises, adds the request's
 * exception count to a counter and records its client execution time on a timer, both
 * tagged with the bucket and the operation. The meter registry is modelled by what it
 * holds: gauge values, gauge registrations, counter totals and timer records.
 */
module MetricsCollector {
  import opened Wrappers

  /** The original request a client call was made for, by its runtime type. */
  datatype OriginalRequest =
    | PutObjectRequest(bucketName: string)
    | GetObjectRequest(bucketName: string)
    | ListObjectsRequest(bucketName: string)
    | DeleteObjectRequest(bucketName: string)
    | CopyObjectRequest(sourceBucketName: string, destinationBucketName: string)
    | OtherRequest(simpleName: string)

  /** `getClass().getSimpleName()`. */
  function SimpleName(original: OriginalRequest): string {
    match original
    case PutObjectRequest(_) => "PutObjectRequest"
    case GetObjectRequest(_) => "GetObjectRequest"
    case ListObjectsRequest(_) => "ListObjectsRequest"
    case DeleteObjectRequest(_) => "DeleteObjectRequest"
    case CopyObjectRequest(_, _) => "CopyObjectRequest"
    case OtherRequest(name) => name
  }

  /** The tags of one request's counter and timer. */
  datatype OperationInfo = OperationInfo(sourceBucket: string, operation: string)

  /**
   * `TimingInfo`: the integer counters the client kept for a request and its
   * sub-measurements by name; a sub-measurement's time is unknown (`None`) until it ended.
   */
  datatype TimingInfo = TimingInfo(counters: map<string, int>, subMeasurements: map<string, Option<real>>)

  /**
   * The part of a `Request` the collector reads: the original request and the timing
   * info of its request metrics (`None` when the request has no metrics or they have no
   * timing info).
   */
  datatype Request = Request(originalRequest: Option<OriginalRequest>, timingInfo: Option<TimingInfo>)

  /** Whether the collection ran to its end, or stopped on a `NullPointerException`. */
  datatype Completion = Completed | ThrewNullPointer

  /** A counter or timer: its name and its two tags. */
  datatype MeterId = MeterId(name: string, bucket: string, operation: string)

  /** One timer record: the timer and the milliseconds recorded. */
  datatype Latency = Latency(timer: MeterId, millis: int)

  /**
   * What the collector has put in the registry: each gauge's current value, the gauge
   * names in the order they were registered, each counter's total and every timer record.
   */
  datatype Meters = Meters(
    gauges: map<string, int>,
    gaugeRegistrations: seq<string>,
    counters: map<MeterId, int>,
    latencies: seq<Latency>)

  /** The registry state after one collection, and how the collection ended. */
  datatype Observation = Observation(meters: Meters, completion: Completion)

  const PoolAvailable := "aws_sdk_pool_available"
  const PoolLeased := "aws_sdk_pool_leased"
  const PoolPending := "aws_sdk_pool_pending"
  const ExceptionCount := "aws_sdk_exception_count"
  const LatencyPrefix := "aws_sdk_latency."
  const ClientExecuteTime := "ClientExecuteTime"
  const AvailableCounter := "HttpClientPoolAvailableCount"
  const LeasedCounter := "HttpClientPoolLeasedCount"
  const PendingCounter := "HttpClientPoolPendingCount"
  const ExceptionCounter := "Exception"

  /** The only gauges the collector ever sets. */
  const PoolGauges: set<string> := {PoolAvailable, PoolLeased, PoolPending}

  const LongMin: int := -0x8000_0000_0000_0000
  const LongMax: int := 0x7FFF_FFFF_FFFF_FFFF

  /**
   * `extractOperationInfo`: the five recognised request types give their bucket (a copy
   * its source bucket) and their simple class name; any other type, or no original
   * request, gives nothing.
   */
  function ExtractOperationInfo(original: Option<OriginalRequest>): (r: Option<OperationInfo>)
    ensures r.Some? <==> original.Some? && !original.value.OtherRequest?
    ensures r.Some? ==> r.value.operation == SimpleName(original.value)
    ensures r.Some? && original.value.CopyObjectRequest? ==> r.value.sourceBucket == original.value.sourceBucketName
    ensures r.Some? && !original.value.CopyObjectRequest? ==> r.value.sourceBucket == original.value.bucketName
  {
    if original.None? then None
    else
      var request := original.value;
      match request
      case PutObjectRequest(bucket) => Some(OperationInfo(bucket, SimpleName(request)))
      case GetObjectRequest(bucket) => Some(OperationInfo(bucket, SimpleName(request)))
      case ListObjectsRequest(bucket) => Some(OperationInfo(bucket, SimpleName(request)))
      case DeleteObjectRequest(bucket) => Some(OperationInfo(bucket, SimpleName(request)))
      case CopyObjectRequest(source, _) => Some(OperationInfo(source, SimpleName(request)))
      case OtherRequest(_) => None
  }

  /** `timingInfo.getCounter(name)`: the counter's value, or nothing when it was never set. */
  function CounterOf(timing: TimingInfo, name: string): (r: Option<int>)
    ensures r.Some? <==> name in timing.counters
    ensures r.Some? ==> r.value == timing.counters[name]
  {
    if name in timing.counters then Some(timing.counters[name]) else None
  }

  /**
   * `Double.longValue()`: rounded toward zero, and held to the range of a Java `long`
   * when the value lies outside it.
   */
  function LongValue(x: real): (n: int)
    ensures LongMin <= n <= LongMax
    ensures LongMin as real <= x <= LongMax as real ==> (n as real) - 1.0 < x < (n as real) + 1.0
    ensures 0.0 <= x ==> 0 <= n && n as real <= x
    ensures x <= 0.0 ==> n <= 0 && x <= n as real
    ensures x < LongMin as real ==> n == LongMin
    ensures LongMax as real < x ==> n == LongMax
  {
    if x < LongMin as real then LongMin
    else if LongMax as real < x then LongMax
    else if 0.0 <= x then x.Floor
    else -((-x).Floor)
  }

  /** `Character.toLowerCase` on the letters A to Z; every other character is kept. */
  function LowerChar(c: char): char {
    if 'A' <= c <= 'Z' then (c as int + 32) as char else c
  }

  /** `toLowerCase()`, on a name made of ASCII letters. */
  function LowerAscii(s: string): (r: string)
    ensures |r| == |s|
  {
    seq(|s|, i requires 0 <= i < |s| => LowerChar(s[i]))
  }

  /** The name of the timer of a sub-measurement. */
  function TimerName(metricName: string): string {
    LatencyPrefix + LowerAscii(metricName)
  }

  /** The client execution time goes to the timer `aws_sdk_latency.clientexecutetime`. */
  lemma ClientExecuteTimeTimer()
    ensures TimerName(ClientExecuteTime) == "aws_sdk_latency.clientexecutetime"
  {
    var name := ClientExecuteTime;
    var lower := LowerAscii(name);
    assert |lower| == 17;
    forall i | 0 <= i < 17 ensures lower[i] == "clientexecutetime"[i] {
      assert lower[i] == LowerChar(name[i]);
    }
    assert lower == "clientexecutetime";
  }

  /**
   * `setGauge`: nothing when there is no value; otherwise the gauge takes the value, and
   * is registered first if it is new.
   */
  function GaugeSet(m: Meters, name: string, value: Option<int>): Meters {
    if value.None? then m
    else
      var registrations := if name in m.gauges then m.gaugeRegistrations else m.gaugeRegistrations + [name];
      m.(gauges := m.gauges[name := value.value], gaugeRegistrations := registrations)
  }

  /** A counter's total, 0 before its first increment. */
  function CountOf(m: Meters, id: MeterId): int {
    if id in m.counters then m.counters[id] else 0
  }

  /** `incrementCounter`: nothing when there is no value; otherwise the tagged counter grows by it. */
  function CounterIncremented(m: Meters, name: string, info: OperationInfo, value: Option<int>): Meters {
    if value.None? then m
    else
      var id := MeterId(name, info.sourceBucket, info.operation);
      m.(counters := m.counters[id := CountOf(m, id) + value.value])
  }

  /**
   * `recordLatency`: a missing sub-measurement is dereferenced and throws; an unknown time
   * records nothing; a known time is recorded, as a `long`, on the tagged timer.
   */
  function LatencyRecorded(m: Meters, metricName: string, timing: TimingInfo, info: OperationInfo): Observation {
    if metricName !in timing.subMeasurements then Observation(m, ThrewNullPointer)
    else
      var millis := timing.subMeasurements[metricName];
      if millis.None? then Observation(m, Completed)
      else
        var timer := MeterId(TimerName(metricName), info.sourceBucket, info.operation);
        Observation(m.(latencies := m.latencies + [Latency(timer, LongValue(millis.value))]), Completed)
  }

  /** The three pool gauges set from the timing info's pool counters, in this order. */
  function PoolGaugesSet(m: Meters, timing: TimingInfo): Meters {
    var available := GaugeSet(m, PoolAvailable, CounterOf(timing, AvailableCounter));
    var leased := GaugeSet(available, PoolLeased, CounterOf(timing, LeasedCounter));
    GaugeSet(leased, PoolPending, CounterOf(timing, PendingCounter))
  }

  /** `collectMetrics(request, response)`: what one call does to the registry. */
  function Observed(m: Meters, request: Option<Request>): Observation {
    if request.None? || request.value.timingInfo.None? then Observation(m, Completed)
    else
      var timing := request.value.timingInfo.value;
      var pooled := PoolGaugesSet(m, timing);
      var info := ExtractOperationInfo(request.value.originalRequest);
      if info.None? then Observation(pooled, Completed)
      else
        var counted := CounterIncremented(pooled, ExceptionCount, info.value, CounterOf(timing, ExceptionCounter));
        LatencyRecorded(counted, ClientExecuteTime, timing, info.value)
  }

  /** The registry after a sequence of collections, in order. */
  function ObservedAll(m: Meters, requests: seq<Option<Request>>): Meters
    decreases |requests|
  {
    if requests == [] then m
    else ObservedAll(Observed(m, requests[0]).meters, requests[1..])
  }

  /** No name is registered twice, and the registered names are exactly the gauges. */
  ghost predicate RegisteredOnce(m: Meters) {
    (forall i, j :: 0 <= i < j < |m.gaugeRegistrations| ==> m.gaugeRegistrations[i] != m.gaugeRegistrations[j]) &&
    (forall name :: name in m.gauges <==> name in m.gaugeRegistrations)
  }

  /** Every gauge is a pool gauge. */
  predicate OnlyPoolGauges(m: Meters) {
    forall name :: name in m.gauges ==> name in PoolGauges
  }

  /** The registry the collector starts from. */
  const Empty := Meters(map[], [], map[], [])

  /**
   * `setGauge` is last-value-wins: the named gauge takes the value and no other gauge
   * changes; a null value changes nothing. Counters and timers are untouched.
   */
  lemma GaugeSetLastValue(m: Meters, name: string, value: Option<int>)
    ensures value.None? ==> GaugeSet(m, name, value) == m
    ensures GaugeFollows(m, GaugeSet(m, name, value), name, value)
    ensures forall other :: other != name ==> GaugeKept(m, GaugeSet(m, name, value), other)
    ensures GaugeSet(m, name, value).counters == m.counters && GaugeSet(m, name, value).latencies == m.latencies
  {
  }

  /** `setGauge` registers a gauge only the first time it is set. */
  lemma GaugeSetRegistersOnce(m: Meters, name: string, value: Option<int>)
    requires RegisteredOnce(m)
    ensures RegisteredOnce(GaugeSet(m, name, value))
    ensures OnlyPoolGauges(m) && name in PoolGauges ==> OnlyPoolGauges(GaugeSet(m, name, value))
  {
    if value.Some? && name !in m.gauges {
      var after := GaugeSet(m, name, value);
      assert after.gaugeRegistrations == m.gaugeRegistrations + [name];
      forall i, j | 0 <= i < j < |after.gaugeRegistrations|
        ensures after.gaugeRegistrations[i] != after.gaugeRegistrations[j]
      {
        if j == |m.gaugeRegistrations| {
          assert after.gaugeRegistrations[i] in m.gaugeRegistrations;
        }
      }
    }
  }

  /** Setting the three pool gauges keeps them registered once and the only gauges. */
  lemma PoolGaugesSetRegistersOnce(m: Meters, timing: TimingInfo)
    requires RegisteredOnce(m) && OnlyPoolGauges(m)
    ensures RegisteredOnce(PoolGaugesSet(m, timing)) && OnlyPoolGauges(PoolGaugesSet(m, timing))
  {
    var available := GaugeSet(m, PoolAvailable, CounterOf(timing, AvailableCounter));
    GaugeSetRegistersOnce(m, PoolAvailable, CounterOf(timing, AvailableCounter));
    var leased := GaugeSet(available, PoolLeased, CounterOf(timing, LeasedCounter));
    GaugeSetRegistersOnce(available, PoolLeased, CounterOf(timing, LeasedCounter));
    GaugeSetRegistersOnce(leased, PoolPending, CounterOf(timing, PendingCounter));
  }

  /** Past the pool gauges, a collection changes no gauge and no registration. */
  lemma ObservedGaugesArePooled(m: Meters, request: Request)
    requires request.timingInfo.Some?
    ensures Observed(m, Some(request)).meters.gauges == PoolGaugesSet(m, request.timingInfo.value).gauges
    ensures Observed(m, Some(request)).meters.gaugeRegistrations == PoolGaugesSet(m, request.timingInfo.value).gaugeRegistrations
  {
  }

  /**
   * A request without timing info (or no request at all) leaves the registry as it was
   * and does not throw.
   */
  lemma NoTimingNoChange(m: Meters, request: Option<Request>)
    requires request.None? || request.value.timingInfo.None?
    ensures Observed(m, request) == Observation(m, Completed)
  {
  }

  /** The pool gauge names differ from each other. */
  lemma PoolGaugeNamesDistinct()
    ensures PoolAvailable != PoolLeased && PoolAvailable != PoolPending && PoolLeased != PoolPending
  {
    assert PoolAvailable[13] == 'a' && PoolLeased[13] == 'l' && PoolPending[13] == 'p';
  }

  /** The gauge `name` is the same in `after` as in `before`. */
  predicate GaugeKept(before: Meters, after: Meters, name: string) {
    (name in after.gauges <==> name in before.gauges) &&
    (name in before.gauges ==> after.gauges[name] == before.gauges[name])
  }

  /** The gauge `name` holds the value when there is one, and is kept otherwise. */
  predicate GaugeFollows(before: Meters, after: Meters, name: string, value: Option<int>) {
    if value.Some? then name in after.gauges && after.gauges[name] == value.value
    else GaugeKept(before, after, name)
  }

  /**
   * With timing info, each pool gauge ends at its pool counter's value (the last value
   * wins) and is kept when that counter is absent; every other gauge is kept. This holds
   * whatever the request's type, and before anything can throw.
   */
  lemma PoolGaugesLastValueWins(m: Meters, request: Request)
    requires request.timingInfo.Some?
    ensures GaugeFollows(m, Observed(m, Some(request)).meters, PoolAvailable, CounterOf(request.timingInfo.value, AvailableCounter))
    ensures GaugeFollows(m, Observed(m, Some(request)).meters, PoolLeased, CounterOf(request.timingInfo.value, LeasedCounter))
    ensures GaugeFollows(m, Observed(m, Some(request)).meters, PoolPending, CounterOf(request.timingInfo.value, PendingCounter))
    ensures forall name :: name !in PoolGauges ==> GaugeKept(m, Observed(m, Some(request)).meters, name)
  {
    PoolGaugeNamesDistinct();
    var timing := request.timingInfo.value;
    var available := GaugeSet(m, PoolAvailable, CounterOf(timing, AvailableCounter));
    GaugeSetLastValue(m, PoolAvailable, CounterOf(timing, AvailableCounter));
    var leased := GaugeSet(available, PoolLeased, CounterOf(timing, LeasedCounter));
    GaugeSetLastValue(available, PoolLeased, CounterOf(timing, LeasedCounter));
    GaugeSetLastValue(leased, PoolPending, CounterOf(timing, PendingCounter));
    ObservedGaugesArePooled(m, request);
  }

  /**
   * A request of none of the five recognised types (or without an original request)
   * updates only the gauges: no counter, no timer, and no exception.
   */
  lemma UnclassifiedOnlyGauges(m: Meters, request: Request)
    requires request.timingInfo.Some? && ExtractOperationInfo(request.originalRequest).None?
    ensures Observed(m, Some(request)).completion == Completed
    ensures Observed(m, Some(request)).meters.counters == m.counters
    ensures Observed(m, Some(request)).meters.latencies == m.latencies
  {
    var timing := request.timingInfo.value;
    var available := GaugeSet(m, PoolAvailable, CounterOf(timing, AvailableCounter));
    var leased := GaugeSet(available, PoolLeased, CounterOf(timing, LeasedCounter));
    assert available.counters == m.counters && available.latencies == m.latencies;
    assert leased.counters == m.counters && leased.latencies == m.latencies;
  }

  /**
   * For a recognised request with timing info, the exception counter tagged with its
   * bucket and operation grows by the "Exception" counter when that is present; no other
   * counter changes.
   */
  lemma ExceptionCounted(m: Meters, request: Request)
    requires request.timingInfo.Some? && ExtractOperationInfo(request.originalRequest).Some?
    ensures var info := ExtractOperationInfo(request.originalRequest).value;
            var id := MeterId(ExceptionCount, info.sourceBucket, info.operation);
            var timing := request.timingInfo.value;
            Observed(m, Some(request)).meters.counters ==
              if ExceptionCounter in timing.counters then m.counters[id := CountOf(m, id) + timing.counters[ExceptionCounter]]
              else m.counters
  {
    var timing := request.timingInfo.value;
    var available := GaugeSet(m, PoolAvailable, CounterOf(timing, AvailableCounter));
    var leased := GaugeSet(available, PoolLeased, CounterOf(timing, LeasedCounter));
    assert available.counters == m.counters;
    assert leased.counters == m.counters;
    assert PoolGaugesSet(m, timing).counters == m.counters;
  }

  /**
   * For a recognised request with timing info, the client execution time is recorded on
   * the timer `aws_sdk_latency.clientexecutetime` tagged with its bucket and operation when
   * it is known, nothing is recorded when it is unknown, and a missing sub-measurement
   * throws after the gauges and the counter were updated.
   */
  lemma LatencyTimed(m: Meters, request: Request)
    requires request.timingInfo.Some? && ExtractOperationInfo(request.originalRequest).Some?
    ensures var info := ExtractOperationInfo(request.originalRequest).value;
            var timing := request.timingInfo.value;
            var seen := Observed(m, Some(request));
            (ClientExecuteTime !in timing.subMeasurements ==> seen.completion == ThrewNullPointer && seen.meters.latencies == m.latencies) &&
            (ClientExecuteTime in timing.subMeasurements && timing.subMeasurements[ClientExecuteTime].None? ==>
               seen.completion == Completed && seen.meters.latencies == m.latencies) &&
            (ClientExecuteTime in timing.subMeasurements && timing.subMeasurements[ClientExecuteTime].Some? ==>
               seen.completion == Completed &&
               seen.meters.latencies == m.latencies + [Latency(MeterId("aws_sdk_latency.clientexecutetime", info.sourceBucket, info.operation),
                                                              LongValue(timing.subMeasurements[ClientExecuteTime].value))])
  {
    ClientExecuteTimeTimer();
    var timing := request.timingInfo.value;
    var available := GaugeSet(m, PoolAvailable, CounterOf(timing, AvailableCounter));
    var leased := GaugeSet(available, PoolLeased, CounterOf(timing, LeasedCounter));
    assert available.latencies == m.latencies;
    assert leased.latencies == m.latencies;
    assert PoolGaugesSet(m, timing).latencies == m.latencies;
  }

  /** One collection keeps the gauges to the three pool gauges, each registered once. */
  lemma ObservedKeepsGauges(m: Meters, request: Option<Request>)
    requires RegisteredOnce(m) && OnlyPoolGauges(m)
    ensures RegisteredOnce(Observed(m, request).meters) && OnlyPoolGauges(Observed(m, request).meters)
  {
    if request.Some? && request.value.timingInfo.Some? {
      PoolGaugesSetRegistersOnce(m, request.value.timingInfo.value);
      ObservedGaugesArePooled(m, request.value);
    }
  }

  /**
   * However many requests are observed from the empty registry, the gauges are among the
   * three pool gauges and each of them was registered at most once.
   */
  lemma {:induction false} ObservedAllKeepsGauges(m: Meters, requests: seq<Option<Request>>)
    requires RegisteredOnce(m) && OnlyPoolGauges(m)
    ensures RegisteredOnce(ObservedAll(m, requests)) && OnlyPoolGauges(ObservedAll(m, requests))
    decreases |requests|
  {
    if requests != [] {
      ObservedKeepsGauges(m, requests[0]);
      ObservedAllKeepsGauges(Observed(m, requests[0]).meters, requests[1..]);
    }
  }

  /** From the empty registry, every gauge is a pool gauge registered exactly once. */
  lemma FromEmptyRegisteredOnce(requests: seq<Option<Request>>)
    ensures RegisteredOnce(ObservedAll(Empty, requests)) && OnlyPoolGauges(ObservedAll(Empty, requests))
  {
    ObservedAllKeepsGauges(Empty, requests);
  }

  /**
   * The collector: the meter registry it writes to (its gauges, their registrations,
   * its counters and timer records) and the map of gauge values it keeps itself.
   */
  class MicrometerMetricsCollector {
    var gauges: map<string, int>
    var gaugeRegistrations: seq<string>
    var counters: map<MeterId, int>
    var latencies: seq<Latency>

    /** The registry and gauge map as a value. */
    function State(): Meters
      reads this
    {
      Meters(gauges, gaugeRegistrations, counters, latencies)
    }

    /** Only the three pool gauges exist, each registered with the registry once. */
    ghost predicate Valid()
      reads this
    {
      RegisteredOnce(State()) && OnlyPoolGauges(State())
    }

    constructor ()
      ensures State() == Empty
      ensures Valid()
    {
      gauges := map[];
      gaugeRegistrations := [];
      counters := map[];
      latencies := [];
    }

    method SetGauge(name: string, value: Option<int>)
      modifies this
      ensures State() == GaugeSet(old(State()), name, value)
    {
      if value.None? {
        return;
      }
      if name !in gauges {
        gaugeRegistrations := gaugeRegistrations + [name];
      }
      gauges := gauges[name := value.value];
    }

    method IncrementCounter(name: string, info: OperationInfo, value: Option<int>)
      modifies this
      ensures State() == CounterIncremented(old(State()), name, info, value)
    {
      if value.None? {
        return;
      }
      var id := MeterId(name, info.sourceBucket, info.operation);
      var count := if id in counters then counters[id] else 0;
      counters := counters[id := count + value.value];
    }

    method RecordLatency(metricName: string, timing: TimingInfo, info: OperationInfo) returns (c: Completion)
      modifies this
      ensures Observation(State(), c) == LatencyRecorded(old(State()), metricName, timing, info)
    {
      if metricName !in timing.subMeasurements {
        return ThrewNullPointer;
      }
      var millis := timing.subMeasurements[metricName];
      if millis.None? {
        return Completed;
      }
      var timer := MeterId(LatencyPrefix + LowerAscii(metricName), info.sourceBucket, info.operation);
      latencies := latencies + [Latency(timer, LongValue(millis.value))];
      c := Completed;
    }

    method CollectMetrics(request: Option<Request>) returns (c: Completion)
      requires Valid()
      modifies this
      ensures Observation(State(), c) == Observed(old(State()), request)
      ensures Valid()
    {
      ObservedKeepsGauges(State(), request);
      if request.None? {
        return Completed;
      }
      var timingInfo := request.value.timingInfo;
      if timingInfo.None? {
        return Completed;
      }
      var timing := timingInfo.value;
      SetGauge(PoolAvailable, CounterOf(timing, AvailableCounter));
      SetGauge(PoolLeased, CounterOf(timing, LeasedCounter));
      SetGauge(PoolPending, CounterOf(timing, PendingCounter));
      var info := ExtractOperationInfo(request.value.originalRequest);
      if info.None? {
        return Completed;
      }
      IncrementCounter(ExceptionCount, info.value, CounterOf(timing, ExceptionCounter));
      c := RecordLatency(ClientExecuteTime, timing, info.value);
    }
  }
}
