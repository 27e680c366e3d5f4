/**
 The dashboard's metrics store: `ingest` appends a batch to its series and keeps the last
 600 points. Truncating at every batch loses nothing over truncating once at the end.
 */
module RollingWindow {
  import opened Telemetry
  import opened SeriesNames

  const MAX_POINTS := 600
  const NS_PER_MS := 1_000_000

  /** A `LiveSeries` without its display labels. */
  datatype LiveSeries = LiveSeries(metricType: int, device: Option<Device>, times: seq<nat>, values: seq<Double>, last: Double)

  type Store = map<string, LiveSeries>

  function NsToMs(ns: nat): nat {
    ns / NS_PER_MS
  }

  function LastN<T>(s: seq<T>, n: nat): seq<T> {
    if |s| > n then s[|s| - n..] else s
  }

  function Millis(ns: seq<nat>): seq<nat> {
    seq(|ns|, i requires 0 <= i < |ns| => NsToMs(ns[i]))
  }

  /** How many points a batch holds: the shorter of its two arrays. */
  function Count(b: Batch): nat {
    if |b.timestampsNs| < |b.values| then |b.timestampsNs| else |b.values|
  }

  function BatchName(b: Batch): string {
    SeriesKey(b.metricType, b.device)
  }

  function TimesIn(store: Store, name: string): seq<nat> {
    if name in store then store[name].times else []
  }

  function ValuesIn(store: Store, name: string): seq<Double> {
    if name in store then store[name].values else []
  }

  /** Times and values are parallel and within the window, and `last` is the newest value. */
  ghost predicate SeriesOk(s: LiveSeries) {
    && 0 < |s.times| == |s.values| <= MAX_POINTS
    && s.last == s.values[|s.values| - 1]
  }

  ghost predicate Valid(store: Store) {
    forall name :: name in store ==> SeriesOk(store[name])
  }

  /** A series after a batch was appended to the given points. */
  function Extended(times: seq<nat>, values: seq<Double>, b: Batch): LiveSeries {
    var newTimes := LastN(times + Millis(b.timestampsNs[..Count(b)]), MAX_POINTS);
    var newValues := LastN(values + b.values[..Count(b)], MAX_POINTS);
    LiveSeries(b.metricType, b.device, newTimes, newValues,
               if newValues == [] then NaN else newValues[|newValues| - 1])
  }

  function IngestedAs(store: Store, name: string, b: Batch): Store {
    if Count(b) == 0 then store
    else store[name := Extended(TimesIn(store, name), ValuesIn(store, name), b)]
  }

  /** What `ingest` leaves in the store. */
  function Ingested(store: Store, b: Batch): Store {
    IngestedAs(store, BatchName(b), b)
  }

  lemma ExtendedIsOk(times: seq<nat>, values: seq<Double>, b: Batch)
    requires |times| == |values| && Count(b) > 0
    ensures SeriesOk(Extended(times, values, b))
  {
  }

  lemma IngestKeepsValid(store: Store, name: string, b: Batch)
    requires Valid(store)
    ensures Valid(IngestedAs(store, name, b))
  {
    if Count(b) > 0 {
      assert name in store ==> SeriesOk(store[name]);
      ExtendedIsOk(TimesIn(store, name), ValuesIn(store, name), b);
    }
  }

  /** A millisecond stamp is the one its nanoseconds fall into. */
  ghost predicate InMillisecond(ms: nat, ns: nat) {
    ms * 1_000_000 <= ns < (ms + 1) * 1_000_000
  }

  /** The new points are the last 600 of the old ones followed by the batch's, point by point;
      of a batch only as many points count as both its arrays have. */
  ghost predicate Rolled(times: seq<nat>, values: seq<Double>, b: Batch, newTimes: seq<nat>, newValues: seq<Double>)
    requires |times| == |values|
  {
    var n := if |b.timestampsNs| < |b.values| then |b.timestampsNs| else |b.values|;
    var all := |times| + n;
    var kept := if all > 600 then 600 else all;
    && |newTimes| == |newValues| == kept
    && forall j :: 0 <= j < kept ==> PointIs(times, values, b, all - kept + j, newTimes[j], newValues[j])
  }

  /** The point is the `p`-th of the old points followed by the batch's. */
  ghost predicate PointIs(times: seq<nat>, values: seq<Double>, b: Batch, p: nat, time: nat, value: Double)
    requires |times| == |values| && p < |times| + |b.timestampsNs| && p < |times| + |b.values|
  {
    if p < |times| then time == times[p] && value == values[p]
    else InMillisecond(time, b.timestampsNs[p - |times|]) && value == b.values[p - |times|]
  }

  lemma ExtendedRolls(times: seq<nat>, values: seq<Double>, b: Batch)
    requires |times| == |values|
    ensures
      var s := Extended(times, values, b);
      Rolled(times, values, b, s.times, s.values) && s.metricType == b.metricType && s.device == b.device
  {
    var s := Extended(times, values, b);
    forall j | 0 <= j < |s.times| ensures PointIs(times, values, b, |times| + Count(b) - |s.times| + j, s.times[j], s.values[j]) {
      PointRolls(times, values, b, j);
    }
  }

  lemma PointRolls(times: seq<nat>, values: seq<Double>, b: Batch, j: nat)
    requires |times| == |values| && j < |Extended(times, values, b).times|
    ensures
      var s := Extended(times, values, b);
      PointIs(times, values, b, |times| + Count(b) - |s.times| + j, s.times[j], s.values[j])
  {
    LastPoints(times, Millis(b.timestampsNs[..Count(b)]));
    LastPoints(values, b.values[..Count(b)]);
  }

  lemma LastPoints<T>(a: seq<T>, b: seq<T>)
    ensures
      var s := LastN(a + b, MAX_POINTS);
      forall j :: 0 <= j < |s| ==> s[j] == LastPoint(a, b, |s|, j)
  {
  }

  /** The `j`-th of the last `kept` elements of two sequences in a row. */
  ghost function LastPoint<T>(a: seq<T>, b: seq<T>, kept: nat, j: nat): T
    requires j < kept <= |a| + |b|
  {
    var p := |a| + |b| - kept + j;
    if p < |a| then a[p] else b[p - |a|]
  }

  /** A batch without points changes nothing; any other one its own series and no other. */
  ghost predicate Stored(before: Store, name: string, b: Batch, after: Store) {
    if |b.timestampsNs| == 0 || |b.values| == 0 then after == before
    else
      && after.Keys == before.Keys + {name} && (forall n :: n in before && n != name ==> after[n] == before[n])
      && after[name].metricType == b.metricType && after[name].device == b.device
      && |TimesIn(before, name)| == |ValuesIn(before, name)|
      && Rolled(TimesIn(before, name), ValuesIn(before, name), b, after[name].times, after[name].values)
      && after[name].last == after[name].values[|after[name].values| - 1]
  }

  lemma IngestIsStored(store: Store, name: string, b: Batch)
    requires Valid(store)
    ensures Stored(store, name, b, IngestedAs(store, name, b))
  {
    assert name in store ==> SeriesOk(store[name]);
    ExtendedRolls(TimesIn(store, name), ValuesIn(store, name), b);
  }

  /** Every series is stored under the name of its type and device. */
  ghost predicate NamedWell(store: Store) {
    forall n :: n in store ==> SeriesKey(store[n].metricType, store[n].device) == n
  }

  lemma IngestKeepsNames(store: Store, name: string, b: Batch)
    requires NamedWell(store) && SeriesKey(b.metricType, b.device) == name
    ensures NamedWell(IngestedAs(store, name, b))
  {
  }

  /** So type and device of a stored series are those of every batch ingested under its name. */
  lemma {:induction false} StoredSeriesMatchTheirBatches(batches: seq<Batch>, b: Batch)
    requires b in batches
    ensures
      var store := IngestAll(batches);
      BatchName(b) in store ==> store[BatchName(b)].metricType == b.metricType && store[BatchName(b)].device == b.device
  {
    NamesStayGood(batches);
    var store, name := IngestAll(batches), BatchName(b);
    if name in store {
      SeriesKeyIsInjective(store[name].metricType, store[name].device, b.metricType, b.device);
    }
  }

  lemma {:induction false} NamesStayGood(batches: seq<Batch>)
    ensures NamedWell(IngestAll(batches))
  {
    if batches != [] {
      var b, before := batches[|batches| - 1], batches[..|batches| - 1];
      NamesStayGood(before);
      IngestKeepsNames(IngestAll(before), BatchName(b), b);
    }
  }

  class MetricsStore {
    var series: Store

    constructor ()
      ensures series == map[]
    {
      series := map[];
    }

    method Reset()
      modifies this
      ensures series == map[]
    {
      series := map[];
    }

    /** The loop that copies the points of a batch behind the previous ones. */
    method Appended(oldTimes: seq<nat>, oldValues: seq<Double>, batch: Batch) returns (times: seq<nat>, values: seq<Double>)
      ensures times == oldTimes + Millis(batch.timestampsNs[..Count(batch)])
      ensures values == oldValues + batch.values[..Count(batch)]
    {
      times, values := oldTimes, oldValues;
      for i := 0 to Count(batch)
        invariant times == oldTimes + Millis(batch.timestampsNs[..i])
        invariant values == oldValues + batch.values[..i]
      {
        times := times + [NsToMs(batch.timestampsNs[i])];
        values := values + [batch.values[i]];
        assert Millis(batch.timestampsNs[..i + 1]) == Millis(batch.timestampsNs[..i]) + [NsToMs(batch.timestampsNs[i])];
      }
    }

    /** Appends, then splices both arrays by the overflow of the times. */
    method Extend(oldTimes: seq<nat>, oldValues: seq<Double>, batch: Batch) returns (next: LiveSeries)
      requires |oldTimes| == |oldValues|
      ensures next == Extended(oldTimes, oldValues, batch)
    {
      var times, values := Appended(oldTimes, oldValues, batch);
      assert |times| == |values|;
      var overflow := |times| - MAX_POINTS;
      if overflow > 0 {
        times := times[overflow..];
        values := values[overflow..];
      }
      next := LiveSeries(batch.metricType, batch.device, times, values,
                         if values == [] then NaN else values[|values| - 1]);
    }

    method Ingest(batch: Batch)
      requires Valid(series)
      modifies this
      ensures Valid(series) && series == Ingested(old(series), batch)
      ensures Stored(old(series), SeriesKey(batch.metricType, batch.device), batch, series)
    {
      var name := BatchName(batch);
      IngestKeepsValid(series, name, batch);
      IngestIsStored(series, name, batch);
      if Count(batch) == 0 { return; }
      assert name in series ==> SeriesOk(series[name]);
      var next := Extend(TimesIn(series, name), ValuesIn(series, name), batch);
      series := series[name := next];
    }
  }

  ghost function IngestAll(batches: seq<Batch>): Store {
    if batches == [] then map[] else Ingested(IngestAll(batches[..|batches| - 1]), batches[|batches| - 1])
  }

  lemma IngestOneMore(batches: seq<Batch>, b: Batch)
    ensures IngestAll(batches + [b]) == Ingested(IngestAll(batches), b)
  {
    assert (batches + [b])[..|batches|] == batches;
  }

  /** All times, and all values, that were ever ingested under a name. */
  ghost function AllTimes(batches: seq<Batch>, name: string): seq<nat> {
    if batches == [] then []
    else
      var b := batches[|batches| - 1];
      AllTimes(batches[..|batches| - 1], name) + if BatchName(b) == name then Millis(b.timestampsNs[..Count(b)]) else []
  }

  ghost function AllValues(batches: seq<Batch>, name: string): seq<Double> {
    if batches == [] then []
    else
      var b := batches[|batches| - 1];
      AllValues(batches[..|batches| - 1], name) + if BatchName(b) == name then b.values[..Count(b)] else []
  }

  lemma EarlyTruncationIsHarmless<T>(s: seq<T>, t: seq<T>, n: nat)
    ensures LastN(LastN(s, n) + t, n) == LastN(s + t, n)
  {
  }

  /** What one batch does to the window of any name. */
  lemma IngestStep(store: Store, name: string, b: Batch, n: string, times: seq<nat>, values: seq<Double>)
    requires TimesIn(store, n) == LastN(times, MAX_POINTS) && ValuesIn(store, n) == LastN(values, MAX_POINTS)
    ensures
      var t := IngestedAs(store, name, b);
      && TimesIn(t, n) == LastN(times + (if name == n then Millis(b.timestampsNs[..Count(b)]) else []), MAX_POINTS)
      && ValuesIn(t, n) == LastN(values + (if name == n then b.values[..Count(b)] else []), MAX_POINTS)
  {
    EarlyTruncationIsHarmless(times, Millis(b.timestampsNs[..Count(b)]), MAX_POINTS);
    EarlyTruncationIsHarmless(values, b.values[..Count(b)], MAX_POINTS);
    assert times + [] == times && values + [] == values;
    if Count(b) == 0 {
      assert Millis(b.timestampsNs[..0]) == [] && b.values[..0] == [];
    }
  }

  /** The window is the last 600 of everything ingested under its name. */
  lemma {:induction false} WindowIsTheLast600(batches: seq<Batch>, name: string)
    ensures TimesIn(IngestAll(batches), name) == LastN(AllTimes(batches, name), 600)
    ensures ValuesIn(IngestAll(batches), name) == LastN(AllValues(batches, name), 600)
  {
    if batches != [] {
      var b, before := batches[|batches| - 1], batches[..|batches| - 1];
      WindowIsTheLast600(before, name);
      IngestStep(IngestAll(before), BatchName(b), b, name, AllTimes(before, name), AllValues(before, name));
    }
  }
}
