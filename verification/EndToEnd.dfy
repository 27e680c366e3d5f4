/**
 The whole pipeline: what the dashboard shows of a series is the last 600 of a strictly
 increasing selection of what the agent collected for it, through drops in the ring, drops in
 the bus, lost tails of connections and any number of reconnects.
 */
module EndToEnd {
  import opened Telemetry
  import opened SeriesBuffers
  import opened MetricsBuffers
  import opened Identity
  import opened StreamProtocol
  import opened StreamInvariant
  import opened StreamTheorems
  import opened SeriesNames
  import opened RollingWindow
  import Pipeline

  /** A point shows a sample: the very value, at the millisecond of its time. (A negative int64
      time reaches the wire as the uint64 it is cast to.) */
  ghost predicate ShownAs(time: nat, value: Double, x: Sample) {
    && value == x.value
    && (-0x8000_0000_0000_0000 <= x.timestampNs < 0x8000_0000_0000_0000 ==>
          InMillisecond(time, if x.timestampNs < 0 then x.timestampNs + 0x1_0000_0000_0000_0000 else x.timestampNs))
  }

  /** The points show the samples, one by one. */
  ghost predicate ShownPoints(times: seq<nat>, values: seq<Double>, samples: seq<Sample>) {
    |times| == |values| == |samples| && forall i :: 0 <= i < |samples| ==> ShownAs(times[i], values[i], samples[i])
  }

  /** History entries `h` travel as the batches `batches`. */
  ghost predicate TravelAs(h: seq<Sent>, batches: seq<Batch>) {
    && |h| == |batches|
    && forall j :: 0 <= j < |h| ==> batches[j] == MakeBatch(batches[j].id, h[j].key, h[j].samples)
  }

  /** No other series of the agent shares the dashboard name of `key`. */
  ghost predicate NameIsOwn(store: MetricsBuffers.Store, key: BufferKey) {
    forall k :: k in store.series && k != key ==> k.metricType != key.metricType || DeviceOf(k) != DeviceOf(key)
  }

  /** The samples of all batches that end up under a name, in the order they are sent. */
  ghost function SamplesNamed(h: seq<Sent>, name: string): seq<Sample> {
    if h == [] then []
    else
      var e := h[|h| - 1];
      SamplesNamed(h[..|h| - 1], name) + if NameOf(e.key) == name then e.samples else []
  }

  /** What is ingested under a name shows what the batches of the series with that name carry. */
  lemma {:induction false} IngestedIsCarried(h: seq<Sent>, batches: seq<Batch>, name: string)
    requires TravelAs(h, batches)
    ensures ShownPoints(AllTimes(batches, name), AllValues(batches, name), SamplesNamed(h, name))
  {
    if h != [] {
      var last := |h| - 1;
      IngestedIsCarried(h[..last], batches[..last], name);
      BatchShowsItsSamples(batches[last].id, h[last].key, h[last].samples);
      OneMoreBatch(SamplesNamed(h[..last], name), h[last].samples, batches, name);
    }
  }

  lemma OneMoreBatch(before: seq<Sample>, samples: seq<Sample>, batches: seq<Batch>, name: string)
    requires batches != []
    requires
      var b := batches[|batches| - 1];
      ShownPoints(Millis(b.timestampsNs[..Count(b)]), b.values[..Count(b)], samples)
    requires ShownPoints(AllTimes(batches[..|batches| - 1], name), AllValues(batches[..|batches| - 1], name), before)
    ensures
      var after := before + if BatchName(batches[|batches| - 1]) == name then samples else [];
      ShownPoints(AllTimes(batches, name), AllValues(batches, name), after)
  {
    assert before + [] == before;
  }

  lemma BatchShowsItsSamples(id: nat, key: BufferKey, samples: seq<Sample>)
    ensures
      var b := MakeBatch(id, key, samples);
      BatchName(b) == NameOf(key) && ShownPoints(Millis(b.timestampsNs[..Count(b)]), b.values[..Count(b)], samples)
  {
    var b := MakeBatch(id, key, samples);
    forall i | 0 <= i < |samples| ensures ShownAs(Millis(b.timestampsNs[..Count(b)])[i], b.values[..Count(b)][i], samples[i]) {
      MakeBatchCarries(id, key, samples);
    }
  }

  /** A name that one series owns shows that series only. */
  lemma {:induction false} OwnNameShowsOneSeries(h: seq<Sent>, key: BufferKey)
    requires forall j :: 0 <= j < |h| && h[j].key != key ==> h[j].key.metricType != key.metricType || DeviceOf(h[j].key) != DeviceOf(key)
    ensures SamplesNamed(h, NameOf(key)) == SamplesOf(h, key)
  {
    if h != [] {
      OwnNameShowsOneSeries(h[..|h| - 1], key);
      NamesCoincide(h[|h| - 1].key, key);
    }
  }

  /** The window holds, under the given name, points that show the last 600 of the samples. */
  ghost predicate Shows(window: RollingWindow.Store, name: string, samples: seq<Sample>) {
    var n := if |samples| > 600 then 600 else |samples|;
    ShownPoints(TimesIn(window, name), ValuesIn(window, name), samples[|samples| - n..])
  }

  /** Whatever the dashboard received of one stream, in order and without repeats, and whatever
      series share a name: the window is the last 600 of the samples of whole batches, which
      cover disjoint increasing ranges of each series' log. */
  lemma DashboardShowsWholeBatches(s: Sys, picks: seq<nat>, name: string) returns (h: seq<Sent>)
    requires Reachable(s)
    requires StrictlyIncreasing(picks) && forall i :: 0 <= i < |picks| ==> picks[i] < |s.published|
    ensures InOrder(h) && AllCarry(h, s.agent.store)
    ensures Shows(IngestAll(Pick(s.published, picks)), name, SamplesNamed(h, name))
  {
    BatchesCoverExactRanges(s);
    var received := Pick(s.published, picks);
    h := Pick(s.sent, picks);
    PicksAreInOrder(s.sent, picks);
    forall j | 0 <= j < |h| ensures Carries(h[j], s.agent.store) { assert h[j] == s.sent[picks[j]]; }
    forall j | 0 <= j < |h| ensures received[j] == MakeBatch(received[j].id, h[j].key, h[j].samples) {
      assert received[j] == s.published[picks[j]];
    }
    IngestedIsCarried(h, received, name);
    WindowIsTheLast600(received, name);
  }

  /** Under a name that one series owns, the window shows the series' log at strictly increasing
      indices, cut to the last 600. */
  lemma DashboardShowsALogSelection(s: Sys, picks: seq<nat>, key: BufferKey) returns (indices: seq<nat>)
    requires Reachable(s) && NameIsOwn(s.agent.store, key)
    requires StrictlyIncreasing(picks) && forall i :: 0 <= i < |picks| ==> picks[i] < |s.published|
    ensures StrictlyIncreasing(indices)
    ensures forall i :: 0 <= i < |indices| ==> indices[i] < |LogOf(s.agent.store, key)|
    ensures Shows(IngestAll(Pick(s.published, picks)), NameOf(key), Pick(LogOf(s.agent.store, key), indices))
  {
    var h := DashboardShowsWholeBatches(s, picks, NameOf(key));
    forall j | 0 <= j < |h| && h[j].key != key ensures h[j].key.metricType != key.metricType || DeviceOf(h[j].key) != DeviceOf(key) {
      assert Carries(h[j], s.agent.store);
    }
    OwnNameShowsOneSeries(h, key);
    indices := SelectionOf(h, s.agent.store, key);
  }

  /** The log indices that ordered batches carry, also for a series that does not exist. */
  lemma SelectionOf(h: seq<Sent>, store: MetricsBuffers.Store, key: BufferKey) returns (indices: seq<nat>)
    requires AllCarry(h, store) && InOrder(h)
    ensures StrictlyIncreasing(indices) && forall i :: 0 <= i < |indices| ==> indices[i] < |LogOf(store, key)|
    ensures SamplesOf(h, key) == Pick(LogOf(store, key), indices)
  {
    if key in store.series {
      DeliveryIsASubsequence(h, store, key);
      indices := Indices(h, key);
    } else {
      NoSamplesWithoutSeries(h, store, key);
      indices := [];
    }
  }

  lemma {:induction false} NoSamplesWithoutSeries(h: seq<Sent>, store: MetricsBuffers.Store, key: BufferKey)
    requires AllCarry(h, store) && key !in store.series
    ensures SamplesOf(h, key) == []
  {
    if h != [] {
      assert Carries(h[|h| - 1], store);
      NoSamplesWithoutSeries(h[..|h| - 1], store, key);
    }
  }

  lemma PicksAreInOrder(sent: seq<Sent>, picks: seq<nat>)
    requires InOrder(sent) && StrictlyIncreasing(picks) && forall i :: 0 <= i < |picks| ==> picks[i] < |sent|
    ensures InOrder(Pick(sent, picks))
  {
  }

  // ----- Joint runs -----

  /** What the collector pushed for a series in a joint run. */
  ghost function PushedFor(steps: seq<Pipeline.Step>, key: BufferKey): seq<Sample> {
    SamplesFor(Collected(Pipeline.AgentSteps(steps)), key)
  }

  ghost predicate ShowsSelection(window: RollingWindow.Store, name: string, pushed: seq<Sample>, indices: seq<nat>) {
    && StrictlyIncreasing(indices) && (forall i :: 0 <= i < |indices| ==> indices[i] < |pushed|)
    && Shows(window, name, Pick(pushed, indices))
  }

  /** End to end, in every joint run of collector, stream, fan-out and one effect instance with
      any number of reconnects: the points the dashboard holds for a series whose name is its
      own are the last at most 600 of an in-order, duplicate-free selection of what the agent
      collected for that series. */
  lemma PipelineDeliversInOrder(cap: nat, agent: string, steps: seq<Pipeline.Step>, key: BufferKey) returns (indices: seq<nat>)
    requires Pipeline.Legal(Pipeline.Init(cap, agent), steps)
    requires NameIsOwn(Pipeline.Exec(Pipeline.Init(cap, agent), steps).stream.agent.store, key)
    ensures ShowsSelection(IngestAll(Pipeline.Exec(Pipeline.Init(cap, agent), steps).received), NameOf(key),
                           PushedFor(steps, key), indices)
  {
    var init := Pipeline.Init(cap, agent);
    var w := Pipeline.Exec(init, steps);
    Pipeline.ReconnectsKeepOrder(cap, agent, steps);
    Pipeline.StreamRuns(init, steps);
    assert Reachable(w.stream);
    indices := DashboardShowsALogSelection(w.stream, w.at, key);
    LogIsPushed(cap, Pipeline.AgentSteps(steps), key, indices);
  }

  /** Without any condition, in every joint run and for every name: the window is the last at
      most 600 of the samples of whole batches; of each series that shares the name they are an
      in-order, duplicate-free selection of what was collected for it. */
  lemma SharedNamesInterleaveBatches(cap: nat, agent: string, steps: seq<Pipeline.Step>, name: string) returns (h: seq<Sent>)
    requires Pipeline.Legal(Pipeline.Init(cap, agent), steps)
    ensures Shows(IngestAll(Pipeline.Exec(Pipeline.Init(cap, agent), steps).received), name, SamplesNamed(h, name))
    ensures forall key :: SelectedFrom(SamplesOf(h, key), PushedFor(steps, key))
  {
    var init := Pipeline.Init(cap, agent);
    var w := Pipeline.Exec(init, steps);
    Pipeline.ReconnectsKeepOrder(cap, agent, steps);
    Pipeline.StreamRuns(init, steps);
    assert Reachable(w.stream);
    h := DashboardShowsWholeBatches(w.stream, w.at, name);
    forall key ensures SelectedFrom(SamplesOf(h, key), PushedFor(steps, key)) {
      var indices := SelectionOf(h, w.stream.agent.store, key);
      LogIsPushed(cap, Pipeline.AgentSteps(steps), key, indices);
    }
  }

  /** `a` is `b` read at strictly increasing positions. */
  ghost predicate SelectedFrom(a: seq<Sample>, b: seq<Sample>) {
    exists at: seq<nat> :: StrictlyIncreasing(at) && (forall i :: 0 <= i < |at| ==> at[i] < |b|) && a == Pick(b, at)
  }

  lemma LogIsPushed(cap: nat, steps: seq<Step>, key: BufferKey, indices: seq<nat>)
    requires Legal(Init(cap), steps)
    requires forall i :: 0 <= i < |indices| ==> indices[i] < |LogOf(Exec(Init(cap), steps).agent.store, key)|
    ensures
      var log, pushed := LogOf(Exec(Init(cap), steps).agent.store, key), SamplesFor(Collected(steps), key);
      && (forall i :: 0 <= i < |indices| ==> indices[i] < |pushed|)
      && Pick(log, indices) == Pick(pushed, indices)
  {
    LogsAreTheCollected(cap, steps, key);
  }

  /** If every collected metric's device is absent, all zeros or of its type's kind, every clean
      key has a name of its own. */
  lemma CleanMetricsKeepTheirNames(cap: nat, steps: seq<Step>, key: BufferKey)
    requires Legal(Init(cap), steps) && Clean(key)
    requires forall m :: m in Collected(steps) ==> Clean(MakeBufferKey(m))
    ensures NameIsOwn(Exec(Init(cap), steps).agent.store, key)
  {
    var store := Exec(Init(cap), steps).agent.store;
    forall k | k in store.series && k != key ensures k.metricType != key.metricType || DeviceOf(k) != DeviceOf(key) {
      LogsAreTheCollected(cap, steps, k);
      var m := MetricBehind(Collected(steps), k);
      CleanNamesAreUnique(k, key);
      NamesCoincide(k, key);
    }
  }

  /** For such collectors the end-to-end order holds for every metric, without a condition on
      names. */
  lemma CleanPipelineDeliversInOrder(cap: nat, agent: string, steps: seq<Pipeline.Step>, m: Metric) returns (indices: seq<nat>)
    requires Pipeline.Legal(Pipeline.Init(cap, agent), steps) && Clean(MakeBufferKey(m))
    requires forall n :: n in Collected(Pipeline.AgentSteps(steps)) ==> Clean(MakeBufferKey(n))
    ensures ShowsSelection(IngestAll(Pipeline.Exec(Pipeline.Init(cap, agent), steps).received), NameOf(MakeBufferKey(m)),
                           PushedFor(steps, MakeBufferKey(m)), indices)
  {
    Pipeline.StreamRuns(Pipeline.Init(cap, agent), steps);
    CleanMetricsKeepTheirNames(cap, Pipeline.AgentSteps(steps), MakeBufferKey(m));
    indices := PipelineDeliversInOrder(cap, agent, steps, MakeBufferKey(m));
  }

  lemma {:induction false} MetricBehind(ms: seq<Metric>, key: BufferKey) returns (m: Metric)
    requires SamplesFor(ms, key) != []
    ensures m in ms && MakeBufferKey(m) == key
  {
    m := ms[|ms| - 1];
    if m.metricType == METRIC_TYPE_UNSPECIFIED || MakeBufferKey(m) != key {
      m := MetricBehind(ms[..|ms| - 1], key);
    }
  }
}
