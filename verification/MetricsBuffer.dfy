/**
 `MetricsBuffer`: one ring per key. After any calls of `AddMetrics`, every series' log is
 exactly the metrics with that key, in order.
 */
module MetricsBuffers {
  import opened Telemetry
  import opened SeriesBuffers
  import opened Identity

  /** All series as values: the map, and the order in which keys were first seen. */
  datatype Store = Store(cap: nat, series: map<BufferKey, Series>, keys: seq<BufferKey>) {

    /** `keys` lists the domain of the map without duplicates. */
    ghost predicate Valid() {
      && Distinct(keys)
      && (forall k :: k in keys <==> k in series)
      && forall k :: k in series ==> series[k].Valid() && series[k].cap == cap
    }

    function AddSample(key: BufferKey, x: Sample): Store {
      if key in series
      then this.(series := series[key := series[key].Push(x)])
      else Store(cap, series[key := EmptySeries(cap).Push(x)], keys + [key])
    }

    function AddMetric(m: Metric): Store {
      if m.metricType == METRIC_TYPE_UNSPECIFIED then this
      else AddSample(MakeBufferKey(m), Sample(m.timestamp, m.value))
    }

    /** An ack moves one tail. */
    function Ack(key: BufferKey, end: nat): Store
      requires key in series
    {
      this.(series := series[key := series[key].Ack(end)])
    }

    function AddMetrics(ms: seq<Metric>): Store {
      if ms == [] then this else AddMetrics(ms[..|ms| - 1]).AddMetric(ms[|ms| - 1])
    }
  }

  function EmptyStore(cap: nat): Store {
    Store(cap, map[], [])
  }

  /** Listed keys stay listed, so a key obtained from the list can always be looked up. */
  lemma AddSampleKeepsValid(s: Store, key: BufferKey, x: Sample)
    requires s.Valid()
    ensures s.AddSample(key, x).Valid()
    ensures s.keys <= s.AddSample(key, x).keys
  {
    var t := s.AddSample(key, x);
    forall k | k in t.series ensures t.series[k].Valid() && t.series[k].cap == s.cap {
      if k == key { } else { assert t.series[k] == s.series[k]; }
    }
  }

  /** The samples of the metrics buffered under `key`, in order. */
  ghost function SamplesFor(ms: seq<Metric>, key: BufferKey): seq<Sample> {
    if ms == [] then []
    else
      var m := ms[|ms| - 1];
      SamplesFor(ms[..|ms| - 1], key)
      + if m.metricType != 0 && MakeBufferKey(m) == key
        then [Sample(m.timestamp, m.value)] else []
  }

  lemma {:induction false} SamplesForConcat(a: seq<Metric>, b: seq<Metric>, key: BufferKey)
    ensures SamplesFor(a + b, key) == SamplesFor(a, key) + SamplesFor(b, key)
  {
    if b == [] {
      assert a + b == a;
    } else {
      assert (a + b)[..|a + b| - 1] == a + b[..|b| - 1];
      SamplesForConcat(a, b[..|b| - 1], key);
    }
  }

  ghost function LogOf(store: Store, key: BufferKey): seq<Sample> {
    if key in store.series then store.series[key].log else []
  }

  /** What a key's log and presence become when metrics with the samples `more` are pushed. */
  ghost predicate LogGrows(s: Store, t: Store, key: BufferKey, more: seq<Sample>) {
    && t.cap == s.cap
    && LogOf(t, key) == LogOf(s, key) + (if s.cap == 0 then [] else more)
    && (key in t.series <==> key in s.series || more != [])
  }

  lemma CollectGrowsLog(s: Store, m: Metric, key: BufferKey)
    requires s.Valid()
    ensures LogGrows(s, s.AddMetric(m), key, SamplesFor([m], key))
  {
    assert [m][..0] == [];
    assert SamplesFor([m], key) ==
      if m.metricType != METRIC_TYPE_UNSPECIFIED && MakeBufferKey(m) == key then [Sample(m.timestamp, m.value)] else [];
  }

  lemma GrowsByNothing(s: Store, key: BufferKey)
    ensures LogGrows(s, s, key, [])
  {
    assert LogOf(s, key) + [] == LogOf(s, key);
  }

  lemma GrowsTwice(s: Store, t: Store, u: Store, key: BufferKey, a: seq<Sample>, b: seq<Sample>)
    requires LogGrows(s, t, key, a) && LogGrows(t, u, key, b)
    ensures LogGrows(s, u, key, a + b)
  {
  }

  /** Without acks only full pushes move the tail. */
  ghost predicate OnlyPushed(s: Store, key: BufferKey) {
    key in s.series ==> s.series[key].tail == Max(|s.series[key].log| - s.cap, 0)
  }

  lemma CollectOnlyPushes(s: Store, m: Metric, key: BufferKey)
    requires s.Valid() && OnlyPushed(s, key)
    ensures s.AddMetric(m).Valid() && OnlyPushed(s.AddMetric(m), key)
  {
    AddSampleKeepsValid(s, MakeBufferKey(m), Sample(m.timestamp, m.value));
  }

  /** The ring refines the log, per key: a key exists exactly if some metric had it, its log
      is the samples of those metrics (a ring without room holds nothing), and its unsent
      samples are the last of them. */
  lemma {:induction false} LogsAreTheMetrics(ms: seq<Metric>, cap: nat, key: BufferKey)
    ensures
      var s := EmptyStore(cap).AddMetrics(ms);
      var all := if cap == 0 then [] else SamplesFor(ms, key);
      && s.Valid() && s.cap == cap
      && (key in s.series <==> SamplesFor(ms, key) != [])
      && (key in s.series ==>
            && s.series[key].log == all
            && s.series[key].tail == Max(|all| - cap, 0)
            && s.series[key].Snap() == Snapshot(all[Max(|all| - cap, 0)..], |all|))
  {
    MetricsGrowLogs(ms, cap, key);
  }

  lemma {:induction false} MetricsGrowLogs(ms: seq<Metric>, cap: nat, key: BufferKey)
    ensures
      var s := EmptyStore(cap).AddMetrics(ms);
      s.Valid() && OnlyPushed(s, key) && LogGrows(EmptyStore(cap), s, key, SamplesFor(ms, key))
  {
    if ms != [] {
      var before, m := ms[..|ms| - 1], ms[|ms| - 1];
      MetricsGrowLogs(before, cap, key);
      var s := EmptyStore(cap).AddMetrics(before);
      CollectOnlyPushes(s, m, key);
      CollectGrowsLog(s, m, key);
      assert ms == before + [m];
      SamplesForConcat(before, [m], key);
      GrowsTwice(EmptyStore(cap), s, s.AddMetric(m), key, SamplesFor(before, key), SamplesFor([m], key));
    }
  }

  class MetricsBuffer {
    const capacityPerSeries: nat
    var series: map<BufferKey, SeriesBuffer>
    var keys: seq<BufferKey>

    /** Different keys have different rings. */
    ghost predicate Separate()
      reads this
    {
      forall k, l :: k in series && l in series && k != l ==> series[k] != series[l]
    }

    ghost predicate Valid()
      reads this, series.Values
    {
      && Separate()
      && (forall k :: k in series ==> series[k].Valid())
      && View().Valid()
    }

    ghost function View(): Store
      reads this, series.Values
    {
      Store(capacityPerSeries, map k | k in series :: series[k].View(), keys)
    }

    constructor (cap: nat)
      ensures Valid() && View() == EmptyStore(cap)
    {
      capacityPerSeries := cap;
      series := map[];
      keys := [];
    }

    /** Whoever got the key from `GetAllKeys`, now or earlier, gets a ring in good order that
        holds exactly the key's series; the ring is shared, not copied. */
    method GetBuffer(key: BufferKey) returns (buffer: SeriesBuffer?)
      requires Valid()
      ensures buffer == null <==> key !in View().keys
      ensures buffer != null ==>
        && key in View().series && buffer.Valid() && buffer.View() == View().series[key]
        && key in series && series[key] == buffer
    {
      if key in series { return series[key]; }
      return null;
    }

    /** Every series exactly once, in the order of their first samples. */
    method GetAllKeys() returns (all: seq<BufferKey>)
      requires Valid()
      ensures Distinct(all) && forall k :: k in all <==> k in View().series
      ensures all == View().keys
    {
      all := keys;
    }

    /** `series_.emplace` with its `inserted` branch. */
    method FindOrCreate(key: BufferKey) returns (ring: SeriesBuffer)
      requires Valid()
      modifies this
      ensures series == old(series)[key := ring] && Separate()
      ensures key in old(series) ==> ring == old(series)[key] && keys == old(keys)
      ensures key !in old(series) ==> fresh(ring) && ring.View() == EmptySeries(capacityPerSeries) && keys == old(keys) + [key]
      ensures ring.Valid()
    {
      if key in series { return series[key]; }
      ring := new SeriesBuffer(capacityPerSeries);
      series := series[key := ring];
      keys := keys + [key];
    }

    method AddSample(key: BufferKey, sample: Sample)
      requires Valid()
      modifies this, series.Values
      ensures Valid() && fresh(series.Values - old(series.Values))
      ensures View() == old(View()).AddSample(key, sample)
    {
      ghost var after := View().AddSample(key, sample);
      AddSampleKeepsValid(View(), key, sample);
      var ring := FindOrCreate(key);
      ring.Push(sample);
      RingsStayValid(key, ring);
      assert View() == after by {
        ViewAfter(key, ring);
        assert after.series == old(View()).series[key := ring.View()];
      }
    }

    /** Replacing or changing one ring changes one entry of the view. */
    twostate lemma ViewAfter(key: BufferKey, new ring: SeriesBuffer)
      requires series == old(series)[key := ring]
      requires forall k :: k in old(series) && k != key ==> unchanged(old(series)[k])
      ensures View().series == old(View()).series[key := ring.View()]
    {
      var now, then_ := View().series, old(View()).series[key := ring.View()];
      assert now.Keys == then_.Keys;
      forall k | k in now ensures now[k] == then_[k] {
        if k != key { assert series[k] == old(series)[k]; }
      }
    }

    twostate lemma RingsStayValid(key: BufferKey, new ring: SeriesBuffer)
      requires series == old(series)[key := ring] && ring.Valid()
      requires forall k :: k in old(series) && k != key ==> unchanged(old(series)[k]) && old(series[k].Valid())
      ensures forall k :: k in series ==> series[k].Valid()
    {
      forall k | k in series ensures series[k].Valid() {
        if k != key { assert series[k] == old(series)[k]; }
      }
    }

    method AddMetric(metric: Metric)
      requires Valid()
      modifies this, series.Values
      ensures Valid() && fresh(series.Values - old(series.Values))
      ensures View() == old(View()).AddMetric(metric)
    {
      if metric.metricType == METRIC_TYPE_UNSPECIFIED { return; }
      AddSample(MakeBufferKey(metric), Sample(metric.timestamp, metric.value));
    }

    method AddMetrics(metrics: seq<Metric>)
      requires Valid()
      modifies this, series.Values
      ensures Valid() && fresh(series.Values - old(series.Values))
      ensures View() == old(View()).AddMetrics(metrics)
    {
      for i := 0 to |metrics|
        invariant Valid() && fresh(series.Values - old(series.Values))
        invariant View() == old(View()).AddMetrics(metrics[..i])
      {
        AddMetric(metrics[i]);
        assert metrics[..i + 1][..i] == metrics[..i];
      }
      assert metrics[..|metrics|] == metrics;
    }
  }
}
