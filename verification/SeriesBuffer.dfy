/**
 `SeriesBuffer`: a ring indexed by two ever-growing counters. The ring is proved to be a
 window of the log of everything ever pushed, and the tail is given in closed form for
 every mix of pushes, snapshots and acks.
 */
module SeriesBuffers {
  import opened Telemetry

  /** `SeriesBuffer::Snapshot`. */
  datatype Snapshot = Snapshot(samples: seq<Sample>, end: nat)

  /** A series as the rest of the agent may think of it: everything pushed so far, the
      index of the oldest unsent sample, and the indices a full push has dropped. */
  datatype Series = Series(cap: nat, log: seq<Sample>, tail: nat, evicted: set<nat>) {

    ghost predicate Valid() {
      && |log| - cap <= tail <= |log|
      && (cap == 0 ==> log == [])
      && forall i :: i in evicted ==> i < tail && i + cap < |log|
    }

    function Push(x: Sample): Series {
      if cap == 0 then this
      else if |log| - tail >= cap then Series(cap, log + [x], tail + 1, evicted + {tail})
      else Series(cap, log + [x], tail, evicted)
    }

    function Snap(): Snapshot
      requires Valid()
    {
      Snapshot(log[tail..], |log|)
    }

    function Ack(end: nat): Series {
      if end > tail then this.(tail := end) else this
    }
  }

  function EmptySeries(cap: nat): Series {
    Series(cap, [], 0, {})
  }

  /** The ring itself, with the source's fields. `log` and `evicted` are history. */
  class SeriesBuffer {
    var capacity: nat
    var samples: seq<Sample>
    var head: nat
    var tail: nat
    ghost var log: seq<Sample>
    ghost var evicted: set<nat>

    /** The ring holds the last `capacity` samples of the log, each at its index modulo
        the capacity. */
    ghost predicate Valid()
      reads this
    {
      && |samples| == capacity
      && head == |log|
      && View().Valid()
      && forall i :: 0 <= i < head && head - capacity <= i ==> samples[i % capacity] == log[i]
    }

    ghost function View(): Series
      reads this
    {
      Series(capacity, log, tail, evicted)
    }

    constructor (cap: nat)
      ensures Valid()
      ensures View() == EmptySeries(cap)
    {
      samples := seq(cap, _ => Sample(0, Finite(0.0)));
      capacity, head, tail := cap, 0, 0;
      log, evicted := [], {};
    }

    /** The source resets `head` and leaves `tail` where it is, so the ring is an empty one
        exactly if nothing was ever evicted or acknowledged. */
    method SetCapacity(cap: nat)
      modifies this
      ensures View() == EmptySeries(cap).(tail := old(tail))
      ensures Valid() <==> old(tail) == 0
    {
      capacity := cap;
      samples := seq(cap, _ => Sample(0, Finite(0.0)));
      head := 0;
      log, evicted := [], {};
    }

    method Push(sample: Sample)
      requires Valid()
      modifies this
      ensures Valid()
      ensures View() == old(View()).Push(sample)
    {
      if capacity == 0 { return; }
      if head - tail >= capacity {
        evicted := evicted + {tail};
        tail := tail + 1;
      }
      var slot := head % capacity;
      forall i | 0 <= i < head && head + 1 - capacity <= i ensures i % capacity != slot {
        SlotsDiffer(i, head, capacity);
      }
      samples := samples[slot := sample];
      log := log + [sample];
      head := head + 1;
    }

    method Latest() returns (latest: Option<Sample>)
      requires Valid()
      ensures latest == if log == [] then None else Some(log[|log| - 1])
    {
      if head == 0 { return None; }
      return Some(samples[(head - 1) % capacity]);
    }

    method GetNextSnapshotSize() returns (n: nat)
      requires Valid()
      ensures n == |View().Snap().samples| <= capacity
    {
      n := head - tail;
    }

    method GetSnapshot() returns (snapshot: Snapshot)
      requires Valid()
      ensures snapshot == View().Snap()
    {
      var result := [];
      var i := tail;
      while i < head
        invariant tail <= i <= head
        invariant result == log[tail..i]
      {
        result := result + [samples[i % capacity]];
        i := i + 1;
      }
      assert log[tail..head] == log[tail..];
      snapshot := Snapshot(result, head);
    }

    /** The source does not look at the head, so the ring stays in order exactly if the end
        is one that a snapshot of this ring can have. */
    method AckSnapshot(snapshot: Snapshot)
      requires Valid()
      modifies this`tail
      ensures View() == old(View()).Ack(snapshot.end)
      ensures Valid() <==> snapshot.end <= head
    {
      if snapshot.end > tail { tail := snapshot.end; }
    }
  }

  /** Two indices less than a capacity apart use different slots. */
  lemma SlotsDiffer(i: nat, j: nat, cap: nat)
    requires i < j < i + cap
    ensures i % cap != j % cap
  {
    var n := j / cap - i / cap;
    assert j - i == n * cap + (j % cap - i % cap);
    if n >= 1 {
      assert n * cap >= cap;
    }
  }

  // ----- Every mix of pushes, snapshots and acks -----

  /** One call on a series. An `AckOf(i)` acknowledges the `i`-th snapshot ever taken: acks
      may be late, repeated or out of order. */
  datatype Call = PushOf(x: Sample) | TakeSnapshot | AckOf(i: nat)

  /** The series together with the ends of all snapshots taken and the greatest end acked. */
  datatype Trace = Trace(series: Series, ends: seq<nat>, ackedEnd: nat)

  ghost function Step(t: Trace, call: Call): Trace {
    match call
    case PushOf(x) => t.(series := t.series.Push(x))
    case TakeSnapshot => t.(ends := t.ends + [|t.series.log|])
    case AckOf(i) =>
      // a snapshot that was never taken cannot be acknowledged
      if i < |t.ends| then Trace(t.series.Ack(t.ends[i]), t.ends, Max(t.ackedEnd, t.ends[i])) else t
  }

  ghost function After(calls: seq<Call>, cap: nat): Trace {
    if calls == [] then Trace(EmptySeries(cap), [], 0)
    else Step(After(calls[..|calls| - 1], cap), calls[|calls| - 1])
  }

  /** All samples pushed by the calls, in order. */
  ghost function Pushed(calls: seq<Call>): seq<Sample> {
    if calls == [] then []
    else
      var last := calls[|calls| - 1];
      Pushed(calls[..|calls| - 1]) + if last.PushOf? then [last.x] else []
  }

  ghost predicate ClosedForm(t: Trace, pushed: seq<Sample>, cap: nat) {
    && t.series.Valid()
    && t.series.cap == cap
    && t.series.log == (if cap == 0 then [] else pushed)
    && t.series.tail == Max(t.ackedEnd, Max(|t.series.log| - cap, 0))
    && t.ackedEnd <= |t.series.log|
    && forall i :: 0 <= i < |t.ends| ==> t.ends[i] <= |t.series.log|
  }

  lemma CallKeepsClosedForm(t: Trace, pushed: seq<Sample>, cap: nat, call: Call)
    requires ClosedForm(t, pushed, cap)
    ensures ClosedForm(Step(t, call), pushed + (if call.PushOf? then [call.x] else []), cap)
  {
    assert pushed + [] == pushed;
  }

  /** The tail is always max(greatest acked end, head - capacity, 0), the log is exactly what
      was pushed, and the ring never holds more than the capacity. */
  lemma {:induction false} TailClosedForm(calls: seq<Call>, cap: nat)
    ensures ClosedForm(After(calls, cap), Pushed(calls), cap)
  {
    if calls != [] {
      var last := |calls| - 1;
      TailClosedForm(calls[..last], cap);
      CallKeepsClosedForm(After(calls[..last], cap), Pushed(calls[..last]), cap, calls[last]);
    }
  }

  /** After any history, two acks can be swapped and a repeated ack changes nothing. */
  lemma AcksCommute(calls: seq<Call>, i: nat, j: nat, cap: nat)
    ensures After(calls + [AckOf(i), AckOf(j)], cap) == After(calls + [AckOf(j), AckOf(i)], cap)
    ensures After(calls + [AckOf(i), AckOf(i)], cap) == After(calls + [AckOf(i)], cap)
  {
    AfterTwo(calls, AckOf(i), AckOf(j), cap);
    AfterTwo(calls, AckOf(j), AckOf(i), cap);
    AfterTwo(calls, AckOf(i), AckOf(i), cap);
    assert (calls + [AckOf(i)])[..|calls|] == calls;
  }

  lemma AfterTwo(calls: seq<Call>, c: Call, d: Call, cap: nat)
    ensures After(calls + [c, d], cap) == Step(Step(After(calls, cap), c), d)
  {
    assert (calls + [c, d])[..|calls| + 1] == calls + [c];
    assert (calls + [c])[..|calls|] == calls;
  }

  /** Two histories that pushed the same samples and whose greatest acked end agrees leave
      the same unsent samples, however their snapshots and acks were interleaved. */
  lemma InterleavingDoesNotMatter(a: seq<Call>, b: seq<Call>, cap: nat)
    requires Pushed(a) == Pushed(b)
    requires After(a, cap).ackedEnd == After(b, cap).ackedEnd
    ensures After(a, cap).series.Valid() && After(b, cap).series.Valid()
    ensures After(a, cap).series.Snap() == After(b, cap).series.Snap()
  {
    TailClosedForm(a, cap);
    TailClosedForm(b, cap);
  }
}
