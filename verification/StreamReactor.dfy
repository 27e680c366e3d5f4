/**
 `StreamMetricsReactor` in its own form: the fields and the bodies of the poll thread and
 of the callbacks, proved against the agent's part of the step system. Run without
 interference, a turn of the poll loop is exactly a run of the poll thread's steps.
 */
module StreamReactor {
  import opened Telemetry
  import opened SeriesBuffers
  import opened MetricsBuffers
  import opened Identity
  import opened StreamProtocol

  /** `EnqueueMetrics(key)`: nothing unsent, nothing sent. */
  function EnqueueKey(a: Agent, key: BufferKey): Agent
    requires key in a.store.series
  {
    var series := a.store.series[key];
    if |series.log| <= series.tail then a
    else
      var snapshot := Snapshot(series.log[series.tail..], |series.log|);
      a.Register(key, snapshot).Enqueue(MakeBatch(a.nextId, key, snapshot.samples))
  }

  ghost predicate Unsent(snapshot: Snapshot, series: Series) {
    && series.tail <= |series.log| && snapshot == Snapshot(series.log[series.tail..], |series.log|)
    && (snapshot.samples == [] <==> |series.log| <= series.tail)
  }

  lemma EnqueueKeyIs(a: Agent, key: BufferKey, snapshot: Snapshot)
    requires key in a.store.series && Unsent(snapshot, a.store.series[key])
    ensures EnqueueKey(a, key) ==
      if snapshot.samples == [] then a
      else a.Register(key, snapshot).Enqueue(MakeBatch(a.nextId, key, snapshot.samples))
  {
  }

  ghost predicate Known(a: Agent, keys: seq<BufferKey>) {
    forall k :: k in keys ==> k in a.store.series
  }

  function EnqueueAll(a: Agent, keys: seq<BufferKey>): (b: Agent)
    requires Known(a, keys)
    ensures b.store == a.store && b.writing == a.writing
    decreases |keys|
  {
    if keys == [] then a
    else
      assert keys[0] in keys;
      EnqueueAll(EnqueueKey(a, keys[0]), keys[1..])
  }

  /** One turn of the poll loop. */
  function PollRound(a: Agent): Agent
    requires Known(a, a.store.keys)
  {
    if a.pending != map[] then a
    else
      var b := EnqueueAll(a, a.store.keys);
      if b.pending == map[] then b else b.Write()
  }

  /** What such a turn hands to gRPC: the front of the queue, if the turn made or found
      something to write and no write is outstanding. */
  function Written(a: Agent): seq<Batch>
    requires Known(a, a.store.keys)
  {
    if a.pending != map[] then []
    else
      var b := EnqueueAll(a, a.store.keys);
      if b.pending != map[] && b.StartsWrite() then [b.queue[0]] else []
  }

  // ----- What a turn takes up -----

  /** There is a pending entry for everything unsent of the series, and a queued batch that
      carries exactly that under the entry's id. */
  ghost predicate HasEntry(b: Agent, key: BufferKey, series: Series) {
    && series.tail <= |series.log|
    && exists id :: id in b.pending && EntryFor(b, id, key, series)
  }

  ghost predicate EntryFor(b: Agent, id: nat, key: BufferKey, series: Series)
    requires id in b.pending && series.tail <= |series.log|
  {
    && b.pending[id] == Pending(key, Snapshot(series.log[series.tail..], |series.log|))
    && exists j :: 0 <= j < |b.queue| && BatchCarries(b.queue[j], id, key, series.log[series.tail..])
  }

  /** `b` is `a` after the keys were visited. */
  ghost predicate Visited(a: Agent, b: Agent, keys: seq<BufferKey>) {
    && b.store == a.store && a.nextId <= b.nextId && a.queue <= b.queue
    && (forall id :: id in a.pending ==> id in b.pending && b.pending[id] == a.pending[id])
    && (forall id :: id in b.pending ==>
          id in a.pending || (a.nextId <= id < b.nextId && HoldsUnsent(b.pending[id].key, keys, a.store)))
    && (forall k :: HoldsUnsent(k, keys, a.store) ==> HasEntry(b, k, a.store.series[k]))
    && forall i, j :: i in b.pending && j in b.pending && a.nextId <= i < j ==> b.pending[i].key != b.pending[j].key
  }

  ghost predicate HoldsUnsent(key: BufferKey, keys: seq<BufferKey>, store: Store) {
    key in keys && key in store.series && store.series[key].tail < |store.series[key].log|
  }

  ghost predicate IdsUsed(a: Agent) {
    forall id :: id in a.pending ==> id < a.nextId
  }

  lemma EntryStays(a: Agent, b: Agent, key: BufferKey, series: Series)
    requires HasEntry(a, key, series) && a.queue <= b.queue
    requires forall id :: id in a.pending ==> id in b.pending && b.pending[id] == a.pending[id]
    ensures HasEntry(b, key, series)
  {
    var id :| id in a.pending && EntryFor(a, id, key, series);
    var j :| 0 <= j < |a.queue| && BatchCarries(a.queue[j], id, key, series.log[series.tail..]);
    assert b.queue[j] == a.queue[j];
    assert EntryFor(b, id, key, series);
  }

  /** One visit: an entry and a batch exactly if something is unsent. */
  lemma VisitOne(a: Agent, key: BufferKey)
    requires IdsUsed(a) && key in a.store.series
    ensures
      var b, series := EnqueueKey(a, key), a.store.series[key];
      && b.store == a.store && IdsUsed(b) && a.queue <= b.queue
      && (series.tail >= |series.log| ==> b == a)
      && (series.tail < |series.log| ==>
            && b.nextId == a.nextId + 1 && b.pending.Keys == a.pending.Keys + {a.nextId}
            && (forall id :: id in a.pending ==> b.pending[id] == a.pending[id])
            && b.pending[a.nextId].key == key && HasEntry(b, key, series))
  {
    var b, series := EnqueueKey(a, key), a.store.series[key];
    if series.tail < |series.log| {
      MakeBatchCarries(a.nextId, key, series.log[series.tail..]);
      assert BatchCarries(b.queue[|a.queue|], a.nextId, key, series.log[series.tail..]);
      assert EntryFor(b, a.nextId, key, series);
    }
  }

  /** All visits, whatever the keys: as long as none is listed twice. */
  lemma {:induction false} EnqueueAllVisits(a: Agent, keys: seq<BufferKey>)
    requires Known(a, keys) && Distinct(keys) && IdsUsed(a)
    ensures Visited(a, EnqueueAll(a, keys), keys)
    decreases |keys|
  {
    if keys != [] {
      var key, rest := keys[0], keys[1..];
      assert keys == [key] + rest && key in keys && key !in rest;
      var m := EnqueueKey(a, key);
      VisitOne(a, key);
      EnqueueAllVisits(m, rest);
      VisitThenRest(a, m, EnqueueAll(m, rest), key, rest);
    }
  }

  lemma VisitThenRest(a: Agent, m: Agent, b: Agent, key: BufferKey, rest: seq<BufferKey>)
    requires IdsUsed(a) && key in a.store.series && key !in rest && m == EnqueueKey(a, key) && Visited(m, b, rest)
    ensures Visited(a, b, [key] + rest)
  {
    VisitOne(a, key);
    var series := a.store.series[key];
    forall k ensures HoldsUnsent(k, [key] + rest, a.store) <==> HoldsUnsent(k, rest, a.store) || (k == key && series.tail < |series.log|) { }
    if series.tail < |series.log| { EntryStays(m, b, key, series); }
  }

  /** What a turn that finds nothing pending leaves behind: every series with something unsent,
      and no other, has exactly one pending entry, which holds all of it, and a queued batch that
      carries it. */
  ghost predicate TurnTakesUp(a: Agent, b: Agent) {
    && (forall k :: k in a.store.series && a.store.series[k].tail < |a.store.series[k].log| ==> HasEntry(b, k, a.store.series[k]))
    && (forall id :: id in b.pending ==>
          var k := b.pending[id].key;
          k in a.store.series && a.store.series[k].tail < |a.store.series[k].log|)
    && forall i, j :: i in b.pending && j in b.pending && i != j ==> b.pending[i].key != b.pending[j].key
  }

  lemma VisitingAllTakesUp(a: Agent, b: Agent)
    requires Visited(a, b, a.store.keys) && a.pending == map[]
    requires forall k :: k in a.store.keys <==> k in a.store.series
    ensures TurnTakesUp(a, b)
  {
    forall k | k in a.store.series && a.store.series[k].tail < |a.store.series[k].log| ensures HasEntry(b, k, a.store.series[k]) {
      assert HoldsUnsent(k, a.store.keys, a.store);
    }
  }

  lemma WriteKeepsTakenUp(a: Agent, b: Agent)
    requires TurnTakesUp(a, b)
    ensures TurnTakesUp(a, b.Write())
  {
    forall k | k in a.store.series && a.store.series[k].tail < |a.store.series[k].log| ensures HasEntry(b.Write(), k, a.store.series[k]) {
      EntryStays(b, b.Write(), k, a.store.series[k]);
    }
  }

  lemma RoundTakesUp(a: Agent)
    requires a.store.Valid() && a.pending == map[] && Known(a, a.store.keys)
    ensures TurnTakesUp(a, PollRound(a))
  {
    var b := EnqueueAll(a, a.store.keys);
    EnqueueAllVisits(a, a.store.keys);
    VisitingAllTakesUp(a, b);
    WriteKeepsTakenUp(a, b);
  }

  /** Pending snapshots were taken from series that exist. */
  ghost predicate PendingKnown(pending: map<nat, Pending>, store: Store) {
    forall id :: id in pending ==>
      && pending[id].key in store.series
      && pending[id].snapshot.end <= |store.series[pending[id].key].log|
  }

  lemma AckKeepsPendingKnown(a: Agent, id: nat)
    requires PendingKnown(a.pending, a.store) && id in a.pending
    ensures PendingKnown(a.Acknowledge(id).pending, a.Acknowledge(id).store)
  {
  }

  class StreamMetricsReactor {
    const buffer: MetricsBuffer
    var pendingSnapshots: map<nat, Pending>
    var writerQueue: seq<Batch>
    var writing: bool
    var batchIdCounter: nat
    ghost var wire: seq<Batch>  // the arguments of StartWrite, in order

    ghost function View(): Agent
      reads this, buffer, buffer.series.Values
    {
      Agent(buffer.View(), pendingSnapshots, writerQueue, writing, batchIdCounter)
    }

    ghost predicate Valid()
      reads this, buffer, buffer.series.Values
    {
      buffer.Valid() && PendingKnown(pendingSnapshots, buffer.View())
    }

    constructor (metrics: MetricsBuffer)
      requires metrics.Valid()
      ensures Valid() && buffer == metrics && wire == []
      ensures View() == Agent(metrics.View(), map[], [], false, 0)
    {
      buffer := metrics;
      pendingSnapshots, writerQueue, writing, batchIdCounter := map[], [], false, 0;
      wire := [];
    }

    /** Changing the reactor's own fields leaves the buffer as it was. */
    twostate lemma BufferStays()
      requires old(buffer.Valid()) && unchanged(buffer) && unchanged(buffer.series.Values)
      ensures buffer.Valid() && buffer.View() == old(buffer.View())
    {
    }

    method Write()
      requires Valid()
      modifies this
      ensures Valid() && View() == old(View()).Write()
      ensures wire == old(wire) + if old(View()).StartsWrite() then [old(writerQueue)[0]] else []
    {
      if writing || writerQueue == [] { return; }
      writing := true;
      wire := wire + [writerQueue[0]];
      BufferStays();
    }

    /** gRPC calls back only for a write that was started, so the queue has a front. */
    method OnWriteDone(ok: bool)
      requires Valid() && writing && writerQueue != []
      modifies this
      ensures Valid()
      ensures !ok ==> View() == old(View()) && wire == old(wire)
      ensures ok ==> View() == old(View()).FinishWrite().Write()
      ensures ok ==> wire == old(wire) + if |old(writerQueue)| > 1 then [old(writerQueue)[1]] else []
    {
      if !ok { return; }
      writerQueue := writerQueue[1..];
      writing := false;
      BufferStays();
      Write();
    }

    method OnReadDone(ok: bool, batchId: nat)
      requires Valid()
      modifies this, buffer.series.Values
      ensures Valid() && wire == old(wire)
      ensures View() == if ok && batchId in old(pendingSnapshots) then old(View()).Acknowledge(batchId) else old(View())
    {
      if !ok { return; }
      if batchId in pendingSnapshots {
        var p := pendingSnapshots[batchId];
        AckKeepsPendingKnown(View(), batchId);
        AckBuffer(p);
        label acked:
        pendingSnapshots := pendingSnapshots - {batchId};
        BufferStays@acked();
      }
    }

    /** `GetBuffer(key)->AckSnapshot(snapshot)` moves one tail and nothing else in the buffer. */
    method AckBuffer(p: Pending)
      requires buffer.Valid() && p.key in buffer.View().series && p.snapshot.end <= |buffer.View().series[p.key].log|
      modifies buffer.series.Values
      ensures buffer.Valid()
      ensures buffer.View() == old(buffer.View()).Ack(p.key, p.snapshot.end)
    {
      var ring := buffer.GetBuffer(p.key);
      ring.AckSnapshot(p.snapshot);
      assert buffer.series == buffer.series[p.key := ring];
      buffer.RingsStayValid(p.key, ring);
      buffer.ViewAfter(p.key, ring);
      AckKeepsStoreValid(old(buffer.View()), p.key, p.snapshot.end);
    }

    /** The loop that fills a batch from a snapshot. */
    method FillBatch(key: BufferKey, samples: seq<Sample>, id: nat) returns (batch: Batch)
      ensures BatchCarries(batch, id, key, samples)
      ensures batch == MakeBatch(id, key, samples)
    {
      var times: seq<nat>, values := [], [];
      for i := 0 to |samples|
        invariant times == WireTimes(samples[..i]) && values == Values(samples[..i])
      {
        times := times + [WireTime(samples[i].timestampNs)];
        values := values + [samples[i].value];
        assert samples[..i + 1] == samples[..i] + [samples[i]];
      }
      assert samples[..|samples|] == samples;
      batch := Batch(id, key.metricType, DeviceOf(key), times, values);
      MakeBatchCarries(id, key, samples);
    }

    /** `GetBuffer(key)->GetSnapshot()`. */
    method TakeSnapshot(key: BufferKey) returns (snapshot: Snapshot)
      requires buffer.Valid() && key in buffer.series
      ensures key in buffer.View().series
      ensures Unsent(snapshot, buffer.View().series[key])
    {
      var ring := buffer.GetBuffer(key);
      snapshot := ring.GetSnapshot();
    }

    method EnqueueMetrics(key: BufferKey)
      requires Valid() && key in buffer.series
      modifies this
      ensures Valid() && wire == old(wire)
      ensures key in old(View()).store.series
      ensures View() == EnqueueKey(old(View()), key)
    {
      var snapshot := TakeSnapshot(key);
      EnqueueKeyIs(View(), key, snapshot);
      if snapshot.samples == [] { return; }
      var batch := FillBatch(key, snapshot.samples, batchIdCounter);
      Announce(batch, key, snapshot);
    }

    /** Fetches the id's successor, makes the pending entry, then queues the batch. */
    method Announce(batch: Batch, key: BufferKey, snapshot: Snapshot)
      requires Valid() && batch.id == batchIdCounter
      requires key in buffer.View().series && snapshot.end <= |buffer.View().series[key].log|
      modifies this
      ensures Valid() && wire == old(wire)
      ensures View() == old(View()).Register(key, snapshot).Enqueue(batch)
    {
      batchIdCounter := batchIdCounter + 1;
      pendingSnapshots := pendingSnapshots[batch.id := Pending(key, snapshot)];
      writerQueue := writerQueue + [batch];
      BufferStays();
    }

    /** `EnqueueMetrics()`: one batch per series that has something unsent. */
    method EnqueueAllMetrics()
      requires Valid()
      modifies this
      ensures Valid() && wire == old(wire)
      ensures Known(old(View()), old(View()).store.keys)
      ensures View() == EnqueueAll(old(View()), old(View()).store.keys)
    {
      var keys := buffer.GetAllKeys();
      var i := 0;
      assert keys[0..] == keys;
      while i < |keys|
        invariant 0 <= i <= |keys|
        invariant Valid() && wire == old(wire)
        invariant View().store == old(View()).store
        invariant Known(View(), keys[i..])
        invariant EnqueueAll(View(), keys[i..]) == EnqueueAll(old(View()), keys)
      {
        assert keys[i] in keys[i..];
        assert keys[i..][1..] == keys[i + 1..];
        EnqueueMetrics(keys[i]);
        i := i + 1;
      }
    }

    method PollTurn()
      requires Valid()
      modifies this
      ensures Valid()
      ensures Known(old(View()), old(View()).store.keys)
      ensures View() == PollRound(old(View()))
      ensures wire == old(wire) + Written(old(View()))
      ensures old(pendingSnapshots) == map[] ==> TurnTakesUp(old(View()), View())
      ensures old(pendingSnapshots) == map[] && pendingSnapshots != map[] && !old(writing) ==>
        writing && writerQueue != [] && wire == old(wire) + [writerQueue[0]]
    {
      if pendingSnapshots == map[] { RoundTakesUp(View()); }
      var hasPending := pendingSnapshots != map[];
      if !hasPending {
        EnqueueAllMetrics();
        hasPending := pendingSnapshots != map[];
        if hasPending {
          Write();
        }
      }
    }
  }

  lemma AckKeepsStoreValid(s: Store, key: BufferKey, end: nat)
    requires s.Valid() && key in s.series && end <= |s.series[key].log|
    ensures s.Ack(key, end).Valid()
  {
    var t := s.Ack(key, end);
    forall k | k in t.series ensures t.series[k].Valid() && t.series[k].cap == s.cap {
      if k != key { assert t.series[k] == s.series[k]; }
    }
  }

  // ----- The turn as a run of the step system -----

  function Turns(n: nat): seq<Step> {
    seq(n, _ => PollThread)
  }

  /** Visiting the keys `todo` in one go takes the poll thread to its recheck. */
  lemma {:induction false} EnqueueAllIsARun(s: Sys, todo: seq<BufferKey>) returns (n: nat)
    requires s.poll == Snap(todo) && Known(s.agent, todo)
    ensures Legal(s, Turns(n))
    ensures Exec(s, Turns(n)).agent == EnqueueAll(s.agent, todo)
    ensures Exec(s, Turns(n)).poll == Recheck && Exec(s, Turns(n)).toServer == s.toServer
    decreases |todo|
  {
    if todo == [] {
      n := 1;
      RunOne(s, 0);
    } else {
      assert todo[0] in todo;
      var t := PollNext(s);
      if t.poll.Snap? {
        var m := EnqueueAllIsARun(t, todo[1..]);
        RunOne(s, m);
        n := m + 1;
      } else {
        VisitKey(s);
        var u := PollNext(t);
        var v := PollNext(u);
        var m := EnqueueAllIsARun(v, todo[1..]);
        RunOne(u, m);
        RunOne(t, m + 1);
        RunOne(s, m + 2);
        n := m + 3;
      }
    }
  }

  /** Snapshot, registration and enqueueing of one series. */
  lemma VisitKey(s: Sys)
    requires s.poll.Snap? && s.poll.todo != [] && s.poll.todo[0] in s.agent.store.series && PollNext(s).poll.HaveSnapshot?
    ensures
      var v := PollNext(PollNext(PollNext(s)));
      v.agent == EnqueueKey(s.agent, s.poll.todo[0]) && v.poll == Snap(s.poll.todo[1..]) && v.toServer == s.toServer
  {
    var t := PollNext(s);
    var u := PollNext(t);
    assert u.poll == HaveBatch(MakeBatch(s.agent.nextId, t.poll.key, t.poll.snapshot.samples), t.poll.todo);
  }

  lemma RunOne(s: Sys, m: nat)
    requires Legal(PollNext(s), Turns(m))
    ensures Legal(s, Turns(m + 1))
    ensures Exec(s, Turns(m + 1)) == Exec(PollNext(s), Turns(m))
  {
    assert Turns(m + 1)[1..] == Turns(m);
  }

  lemma {:induction false} RunMore(s: Sys, m: nat, n: nat)
    requires Legal(s, Turns(m)) && Legal(Exec(s, Turns(m)), Turns(n))
    ensures Legal(s, Turns(m + n))
    ensures Exec(s, Turns(m + n)) == Exec(Exec(s, Turns(m)), Turns(n))
    decreases m
  {
    if m > 0 {
      assert Turns(m)[1..] == Turns(m - 1);
      RunMore(PollNext(s), m - 1, n);
      RunOne(s, m - 1 + n);
    }
  }

  /** A turn of the poll loop that nobody interrupts is a run of poll-thread steps from gate
      to gate with the same effect on the reactor and on the wire. */
  lemma PollTurnIsARun(s: Sys) returns (n: nat)
    requires s.poll == Gate && Known(s.agent, s.agent.store.keys)
    ensures Legal(s, Turns(n))
    ensures Exec(s, Turns(n)).agent == PollRound(s.agent) && Exec(s, Turns(n)).poll == Gate
    ensures Exec(s, Turns(n)).toServer == s.toServer + Written(s.agent)
  {
    var t := PollNext(s);
    if s.agent.pending != map[] {
      n := 1;
      RunOne(s, 0);
    } else {
      var u := PollNext(t);
      var m := EnqueueAllIsARun(u, s.agent.store.keys);
      RunOne(t, m);
      RunOne(s, m + 1);
      var last := FinishTurn(Exec(s, Turns(m + 2)));
      RunMore(s, m + 2, last);
      n := m + 2 + last;
    }
  }

  /** Recheck, and Write() if anything is pending. */
  lemma FinishTurn(s: Sys) returns (n: nat)
    requires s.poll == Recheck
    ensures Legal(s, Turns(n)) && Exec(s, Turns(n)).poll == Gate
    ensures Exec(s, Turns(n)).agent == if s.agent.pending == map[] then s.agent else s.agent.Write()
    ensures Exec(s, Turns(n)).toServer ==
      s.toServer + if s.agent.pending != map[] && s.agent.StartsWrite() then [s.agent.queue[0]] else []
  {
    n := if s.agent.pending == map[] then 1 else 2;
    if n == 2 {
      RunOne(PollNext(s), 0);
    }
    RunOne(s, n - 1);
  }
}
