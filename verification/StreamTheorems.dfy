/**
 What the metric stream guarantees in every reachable state: exact ranges, in-order
 at-most-once delivery, ack safety, bounded memory, no stranded batch, and that every
 round can be driven to its end in a bounded number of steps.
 */
module StreamTheorems {
  import opened Telemetry
  import opened SeriesBuffers
  import opened MetricsBuffers
  import opened Identity
  import opened StreamProtocol
  import opened StreamInvariant

  // ----- Logs -----

  /** The metrics a run collects, in order. */
  ghost function Collected(steps: seq<Step>): seq<Metric> {
    if steps == [] then []
    else (if steps[0].Collect? then [steps[0].metric] else []) + Collected(steps[1..])
  }

  /** Only the collector changes logs; acks move tails. */
  lemma OtherStepsKeepLogs(s: Sys, step: Step, key: BufferKey)
    requires Enabled(s, step) && !step.Collect?
    ensures LogGrows(s.agent.store, Next(s, step).agent.store, key, [])
  {
    if !step.ReadDone? {
      OnlyAcksTouchTheStore(s, step);
    }
  }

  lemma OnlyAcksTouchTheStore(s: Sys, step: Step)
    requires Enabled(s, step) && !step.Collect? && !step.ReadDone?
    ensures Next(s, step).agent.store == s.agent.store
  {
    if step.PollThread? { PollFrame(s); }
  }

  lemma StepGrowsLog(s: Sys, step: Step, key: BufferKey)
    requires s.agent.store.Valid() && Enabled(s, step)
    ensures LogGrows(s.agent.store, Next(s, step).agent.store, key, SamplesFor(Collected([step]), key))
  {
    assert [step][1..] == [];
    if step.Collect? {
      CollectGrowsLog(s.agent.store, step.metric, key);
      assert Collected([step]) == [step.metric];
    } else {
      OtherStepsKeepLogs(s, step, key);
      assert Collected([step]) == [];
    }
  }

  lemma {:induction false} RunGrowsLog(s: Sys, steps: seq<Step>, key: BufferKey)
    requires Inv(s) && Legal(s, steps)
    ensures LogGrows(s.agent.store, Exec(s, steps).agent.store, key, SamplesFor(Collected(steps), key))
    decreases |steps|
  {
    if steps == [] {
      GrowsByNothing(s.agent.store, key);
    } else {
      var t := Next(s, steps[0]);
      StepKeepsInv(s, steps[0]);
      RunGrowsLog(t, steps[1..], key);
      StepGrowsLog(s, steps[0], key);
      CollectedSplits(steps);
      SamplesForConcat(Collected([steps[0]]), Collected(steps[1..]), key);
      GrowsTwice(s.agent.store, t.agent.store, Exec(s, steps).agent.store, key,
                 SamplesFor(Collected([steps[0]]), key), SamplesFor(Collected(steps[1..]), key));
    }
  }

  lemma CollectedSplits(steps: seq<Step>)
    requires steps != []
    ensures Collected(steps) == Collected([steps[0]]) + Collected(steps[1..])
  {
    assert [steps[0]][1..] == [];
  }

  /** In every run, whatever is sent and acknowledged meanwhile: a series exists exactly if
      some collected metric has its key, and its log is those metrics' samples, in order. */
  lemma LogsAreTheCollected(cap: nat, steps: seq<Step>, key: BufferKey)
    requires Legal(Init(cap), steps)
    ensures
      var store, all := Exec(Init(cap), steps).agent.store, SamplesFor(Collected(steps), key);
      && store.cap == cap
      && (key in store.series <==> all != [])
      && (key in store.series ==> store.series[key].log == if cap == 0 then [] else all)
  {
    InitInv(cap);
    RunGrowsLog(Init(cap), steps, key);
  }

  // ----- Ranges -----

  /** The entry is a nonempty stretch of its series' log. */
  ghost predicate Carries(e: Sent, store: Store) {
    && e.key in store.series
    && e.start < e.end <= |store.series[e.key].log|
    && e.samples == store.series[e.key].log[e.start..e.end]
  }

  /** Batches of one series cover disjoint, increasing ranges. */
  ghost predicate InOrder(h: seq<Sent>) {
    forall i, j :: 0 <= i < j < |h| && h[i].key == h[j].key ==> h[i].end <= h[j].start
  }

  lemma {:induction false} EndsGrow(h: seq<Sent>, store: Store, i: nat)
    requires HistoryOk(h, store) && i < |h|
    ensures h[i].end <= LastEnd(h, h[i].key)
  {
    var last := |h| - 1;
    if i < last {
      HistoryPrefix(h, last, store);
      EndsGrow(h[..last], store, i);
      assert Extends(h[..last], h[last], store);
    }
  }

  lemma HistoryIsInOrder(h: seq<Sent>, store: Store)
    requires HistoryOk(h, store)
    ensures InOrder(h)
  {
    forall i, j | 0 <= i < j < |h| && h[i].key == h[j].key ensures h[i].end <= h[j].start {
      HistoryPrefix(h, j, store);
      EndsGrow(h[..j], store, i);
      assert Extends(h[..j], h[j], store);
    }
  }

  /** Exact accounting of every batch ever made, in every interleaving: it carries the
      samples of its range; the range starts exactly at max(end of the series' previous
      batch, head at the snapshot - capacity); ranges of one series are disjoint and
      increasing; what a range skips was overwritten; and what the server publishes are
      these batches, in order, each once. */
  lemma BatchesCoverExactRanges(s: Sys)
    requires Reachable(s)
    ensures forall j :: 0 <= j < |s.sent| ==>
      var e := s.sent[j];
      && Carries(e, s.agent.store)
      && e.start == Max(LastEnd(s.sent[..j], e.key), e.end - s.agent.store.cap)
      && Accounted(s.sent[..j], e.key, s.agent.store.series[e.key], e.start)
    ensures InOrder(s.sent)
    ensures |s.published| <= |s.sent|
    ensures forall i :: 0 <= i < |s.published| ==> s.published[i] == MakeBatch(i, s.sent[i].key, s.sent[i].samples)
  {
    ReachableInv(s);
    HistoryIsInOrder(s.sent, s.agent.store);
    forall j | 0 <= j < |s.sent| ensures Extends(s.sent[..j], s.sent[j], s.agent.store) { }
    forall i | 0 <= i < |s.published|
      ensures i < |s.sent| && s.published[i] == MakeBatch(i, s.sent[i].key, s.sent[i].samples)
    {
      assert Flow(s)[i] == s.published[i];
    }
  }

  // ----- Delivery of one series -----

  ghost function Range(a: nat, b: nat): seq<nat> {
    if a < b then seq(b - a, i requires i >= 0 => a + i) else []
  }

  /** The log indices the batches carry for `key`, in the order they are sent. */
  ghost function Indices(h: seq<Sent>, key: BufferKey): seq<nat> {
    if h == [] then []
    else
      var e := h[|h| - 1];
      Indices(h[..|h| - 1], key) + if e.key == key then Range(e.start, e.end) else []
  }

  /** The samples the batches carry for `key`, in the order they are sent. */
  ghost function SamplesOf(h: seq<Sent>, key: BufferKey): seq<Sample> {
    if h == [] then []
    else
      var e := h[|h| - 1];
      SamplesOf(h[..|h| - 1], key) + if e.key == key then e.samples else []
  }

  ghost predicate AllCarry(h: seq<Sent>, store: Store) {
    forall j :: 0 <= j < |h| ==> Carries(h[j], store)
  }

  lemma {:induction false} IndicesAreTheCovered(h: seq<Sent>, key: BufferKey)
    ensures forall i: nat :: i in Indices(h, key) <==> Covered(h, key, i)
  {
    if h != [] {
      var e := h[|h| - 1];
      IndicesAreTheCovered(h[..|h| - 1], key);
      CoveredByLast(h, key);
      RangeMembers(e.start, e.end);
    }
  }

  lemma RangeMembers(a: nat, b: nat)
    ensures forall i: nat :: i in Range(a, b) <==> a <= i < b
  {
    forall i: nat | a <= i < b ensures i in Range(a, b) {
      assert Range(a, b)[i - a] == i;
    }
  }

  lemma {:induction false} IndicesIncrease(h: seq<Sent>, store: Store, key: BufferKey)
    requires AllCarry(h, store) && InOrder(h)
    ensures StrictlyIncreasing(Indices(h, key))
  {
    if h != [] {
      var last := |h| - 1;
      IndicesIncrease(h[..last], store, key);
      var before := Indices(h[..last], key);
      IndicesAreTheCovered(h[..last], key);
      forall i | 0 <= i < |before| && h[last].key == key ensures before[i] < h[last].start {
        assert before[i] in before;
        var j :| 0 <= j < last && h[..last][j].key == key && h[..last][j].start <= before[i] < h[..last][j].end;
        assert h[j].end <= h[last].start;
      }
    }
  }

  /** Whatever ordered batches are looked at, they deliver a strictly increasing selection
      of the log: in order, and no sample twice. */
  lemma {:induction false} DeliveryIsASubsequence(h: seq<Sent>, store: Store, key: BufferKey)
    requires key in store.series && AllCarry(h, store) && InOrder(h)
    ensures
      var idx := Indices(h, key);
      && StrictlyIncreasing(idx)
      && (forall i :: 0 <= i < |idx| ==> idx[i] < |store.series[key].log|)
      && SamplesOf(h, key) == Pick(store.series[key].log, idx)
  {
    IndicesIncrease(h, store, key);
    if h != [] {
      var last := |h| - 1;
      DeliveryIsASubsequence(h[..last], store, key);
      assert Carries(h[last], store);
      if h[last].key == key {
        AppendRange(Indices(h[..last], key), h[last], store.series[key].log);
      }
    }
  }

  lemma AppendRange(before: seq<nat>, e: Sent, log: seq<Sample>)
    requires e.start < e.end <= |log| && e.samples == log[e.start..e.end]
    requires forall i :: 0 <= i < |before| ==> before[i] < |log|
    ensures
      var all := before + Range(e.start, e.end);
      && (forall i :: 0 <= i < |all| ==> all[i] < |log|)
      && Pick(log, all) == Pick(log, before) + e.samples
  {
  }

  lemma CoveredByLast(h: seq<Sent>, key: BufferKey)
    requires h != []
    ensures
      var e := h[|h| - 1];
      forall i: nat :: Covered(h, key, i) <==>
        Covered(h[..|h| - 1], key, i) || (e.key == key && e.start <= i < e.end)
  {
    var last := |h| - 1;
    forall i: nat ensures Covered(h, key, i) <==>
      Covered(h[..last], key, i) || (h[last].key == key && h[last].start <= i < h[last].end)
    {
      if Covered(h[..last], key, i) {
        CoveredGrows(h, last, key, i);
      }
      if Covered(h, key, i) {
        var j :| 0 <= j < |h| && h[j].key == key && h[j].start <= i < h[j].end;
        if j < last { assert h[..last][j] == h[j]; }
      }
    }
  }

  /** In order, at most once: what the server has published of a series is its log read at
      strictly increasing indices, and every index below the last published end that is
      missing was dropped by a push onto a full ring, and has left the ring since. */
  lemma PublishedInOrderAtMostOnce(s: Sys, key: BufferKey)
    requires Reachable(s) && key in s.agent.store.series
    ensures |s.published| <= |s.sent|
    ensures
      var h := s.sent[..|s.published|];
      var idx := Indices(h, key);
      var series := s.agent.store.series[key];
      && StrictlyIncreasing(idx)
      && (forall i :: 0 <= i < |idx| ==> idx[i] < |series.log|)
      && SamplesOf(h, key) == Pick(series.log, idx)
      && forall i: nat :: i < LastEnd(h, key) && i !in idx ==> i in series.evicted && i + s.agent.store.cap < |series.log|
  {
    ReachableInv(s);
    BatchesCoverExactRanges(s);
    var h, store := s.sent[..|s.published|], s.agent.store;
    HistoryPrefix(s.sent, |s.published|, store);
    forall j | 0 <= j < |h| ensures Carries(h[j], store) { assert Extends(h[..j], h[j], store); }
    DeliveryIsASubsequence(h, store, key);
    IndicesAreTheCovered(h, key);
    GapsWereEvicted(h, store, key);
  }

  lemma {:induction false} GapsWereEvicted(h: seq<Sent>, store: Store, key: BufferKey)
    requires HistoryOk(h, store) && key in store.series
    ensures Accounted(h, key, store.series[key], LastEnd(h, key))
  {
    if h != [] {
      var last := |h| - 1;
      HistoryPrefix(h, last, store);
      GapsWereEvicted(h[..last], store, key);
      assert Extends(h[..last], h[last], store);
      CoveredByLast(h, key);
    }
  }

  // ----- Acknowledgements -----

  /** Ack safety, exactly: an index is below the tail if and only if a full push dropped it
      or an acknowledged, hence published, batch carries it. The tail itself is
      max(end of the last acknowledged batch, head - capacity). */
  lemma BelowTailIffDeliveredOrEvicted(s: Sys, key: BufferKey, i: nat)
    requires Reachable(s) && key in s.agent.store.series
    ensures s.acked <= |s.published| <= |s.sent|
    ensures
      var series := s.agent.store.series[key];
      series.tail == Max(LastEnd(s.sent[..s.acked], key), |series.log| - s.agent.store.cap)
    ensures i < s.agent.store.series[key].tail <==>
      i in s.agent.store.series[key].evicted || Covered(s.sent[..s.acked], key, i)
  {
    ReachableInv(s);
    assert |Flow(s)| >= |s.published|;
    var h, store := s.sent[..s.acked], s.agent.store;
    assert TailOk(h, key, store.series[key]);
    HistoryPrefix(s.sent, s.acked, store);
    if Covered(h, key, i) {
      var j :| 0 <= j < |h| && h[j].key == key && h[j].start <= i < h[j].end;
      EndsGrow(h, store, j);
    }
  }

  /** Every ack that arrives finds its pending entry: it is the oldest one, and the branch
      for unknown ids is never taken. No null series is ever dereferenced and no empty
      queue is popped. */
  lemma AcksAreNeverUnknown(s: Sys)
    requires Reachable(s)
    ensures s.unknownAcks == 0 && !s.fault
    ensures s.toAgent != [] ==>
      && s.toAgent[0] in s.agent.pending
      && forall id :: id in s.agent.pending ==> s.toAgent[0] <= id
  {
    ReachableInv(s);
    if s.toAgent != [] { AckIsExpected(s); }
  }

  // ----- Memory -----

  lemma {:induction false} DistinctFit<T>(s: seq<T>, space: seq<T>)
    requires Distinct(s) && forall i :: 0 <= i < |s| ==> s[i] in space
    ensures |s| <= |space|
  {
    if s != [] {
      var i :| 0 <= i < |space| && space[i] == s[0];
      var rest := space[..i] + space[i + 1..];
      forall j | 0 <= j < |s[1..]| ensures s[1..][j] in rest {
        assert s[1..][j] == s[j + 1] != s[0];
        var m :| 0 <= m < |space| && space[m] == s[j + 1];
        if m < i { assert rest[m] == space[m]; } else { assert rest[m - 1] == space[m]; }
      }
      DistinctFit(s[1..], rest);
    }
  }

  lemma {:induction false} IntervalSize(m: set<nat>, a: nat, b: nat)
    requires a <= b && forall i: nat :: i in m <==> a <= i < b
    ensures |m| == b - a
  {
    if a == b {
      assert m == {};
    } else {
      IntervalSize(m - {a}, a + 1, b);
    }
  }

  lemma PendingPerSeries(sent: seq<Sent>, acked: nat, store: Store)
    requires store.Valid() && HistoryOk(sent, store) && RoundOk(sent, acked)
    ensures |sent| - acked <= |store.keys|
  {
    var open := sent[acked..];
    var keys := seq(|open|, i requires 0 <= i < |open| => open[i].key);
    forall i | 0 <= i < |keys| ensures keys[i] in store.keys {
      assert Extends(sent[..acked + i], sent[acked + i], store);
    }
    DistinctFit(keys, store.keys);
  }

  /** A queued batch that is not in flight is pending and no longer than the ring. */
  lemma UnsentIsPending(s: Sys, i: nat)
    requires Inv(s) && i < |Unsent(s.agent)|
    ensures Unsent(s.agent)[i].id in s.agent.pending && |Unsent(s.agent)[i].values| <= s.agent.store.cap
  {
    var n := UnsentPosition(s, i);
    SentFitsRing(s.sent, n, s.agent.store);
  }

  lemma SentFitsRing(sent: seq<Sent>, n: nat, store: Store)
    requires HistoryOk(sent, store) && n < |sent|
    ensures |sent[n].samples| <= store.cap
  {
    assert Extends(sent[..n], sent[n], store);
  }

  lemma UnsentPosition(s: Sys, i: nat) returns (n: nat)
    requires FlowOk(Flow(s), s.sent) && i < |Unsent(s.agent)|
    ensures |s.published| <= n < |s.sent|
    ensures Unsent(s.agent)[i] == MakeBatch(n, s.sent[n].key, s.sent[n].samples)
  {
    n := |s.published + Held(s.server) + s.toServer| + i;
    assert Unsent(s.agent)[i] == Flow(s)[n];
  }

  lemma QueueFits(s: Sys)
    requires Inv(s)
    ensures |Unsent(s.agent)| <= |s.sent| - s.acked
    ensures |s.agent.queue| <= |Unsent(s.agent)| + 1
  {
    assert |Flow(s)| == |s.published| + |Held(s.server)| + |s.toServer| + |Unsent(s.agent)| + |InHand(s.poll)|;
  }

  /** Memory stays bounded over unbounded runs: at most one pending batch per series, at most
      one queued batch more than that, no batch longer than the ring, every queued batch that
      is not being written is pending, and with nothing pending at most the batch in flight
      is queued. */
  lemma BoundedMemory(s: Sys)
    requires Reachable(s)
    ensures |s.agent.pending| == |s.sent| - s.acked <= |s.agent.store.keys|
    ensures |s.agent.queue| <= |s.agent.store.keys| + 1
    ensures forall b :: b in Unsent(s.agent) ==> b.id in s.agent.pending && |b.values| <= s.agent.store.cap
    ensures s.agent.pending == map[] ==> |s.agent.queue| <= 1 && (s.agent.queue != [] ==> s.agent.writing)
  {
    ReachableInv(s);
    PendingCount(s);
    PendingPerSeries(s.sent, s.acked, s.agent.store);
    QueueFits(s);
    UnsentArePending(s);
  }

  lemma PendingCount(s: Sys)
    requires Inv(s)
    ensures |s.agent.pending| == |s.sent| - s.acked
    ensures s.agent.pending == map[] ==> |s.sent| == s.acked
  {
    IntervalSize(s.agent.pending.Keys, s.acked, |s.sent|);
  }

  lemma UnsentArePending(s: Sys)
    requires Inv(s)
    ensures forall b :: b in Unsent(s.agent) ==> b.id in s.agent.pending && |b.values| <= s.agent.store.cap
  {
    forall b | b in Unsent(s.agent) ensures b.id in s.agent.pending && |b.values| <= s.agent.store.cap {
      var i :| 0 <= i < |Unsent(s.agent)| && Unsent(s.agent)[i] == b;
      UnsentIsPending(s, i);
    }
  }

  // ----- Progress -----

  /** No stranded batch: if a queued batch is not being written, something is pending, and
      either an OnWriteDone is about to call Write(), or the poll thread is between its key
      list and its Write(). */
  lemma NoStrandedBatch(s: Sys)
    requires Reachable(s) && s.agent.queue != [] && !s.agent.writing
    ensures s.agent.pending != map[]
    ensures s.popped > 0 || s.poll.Snap? || s.poll.HaveSnapshot? || s.poll.HaveBatch? || s.poll.Recheck? || s.poll.CallWrite?
  {
    ReachableInv(s);
    IdleQueueIsPending(s);
  }

  /** Whoever that is, writes it: the recheck sees the pending entry and goes on to Write(),
      and any Write() starts the write. */
  lemma TheIdleBatchIsWritten(s: Sys)
    requires Reachable(s) && s.agent.queue != [] && !s.agent.writing
    ensures s.poll.Recheck? ==> PollNext(s).poll.CallWrite?
    ensures s.poll.CallWrite? ==> PollNext(s).due && PollNext(s).toServer == s.toServer + [s.agent.queue[0]]
    ensures s.popped > 0 ==>
      Next(s, CallbackWrite).due && Next(s, CallbackWrite).toServer == s.toServer + [s.agent.queue[0]]
  {
    NoStrandedBatch(s);
  }

  /** Steps that move an existing round forward: everything except the collector, a failing
      write, and the poll thread waiting at or passing its gate. */
  ghost predicate Productive(s: Sys, step: Step) {
    Enabled(s, step) && !step.Collect? && !step.WriteFailed? && !(step.PollThread? && s.poll.Gate?)
  }

  ghost function PollRank(poll: Poll, keys: nat): nat {
    match poll
    case Gate => 0
    case ListKeys => 4 + 9 * keys
    case Snap(todo) => 3 + 9 * |todo|
    case HaveSnapshot(_, _, todo) => 11 + 9 * |todo|
    case HaveBatch(_, todo) => 10 + 9 * |todo|
    case Recheck => 2
    case CallWrite => 1
  }

  ghost function WriteWork(a: Agent, due: bool, popped: nat): nat {
    6 * |Unsent(a)| + (if due then 2 else 0) + popped
  }

  ghost function WireWork(toServer: nat, server: Server, toAgent: nat): nat {
    4 * toServer + (match server case Receiving => 0 case Publishing(_) => 3 case Acking(_) => 2) + toAgent
  }

  /** Hops left until everything made so far, and what the poll thread is about to make, is
      acknowledged. */
  ghost function Rank(s: Sys): nat {
    PollRank(s.poll, |s.agent.store.keys|)
    + WriteWork(s.agent, s.due, s.popped)
    + WireWork(|s.toServer|, s.server, |s.toAgent|)
  }

  lemma WriteKeepsRank(s: Sys)
    ensures Rank(DoWrite(s)) <= Rank(s) && DoWrite(s).poll == s.poll && DoWrite(s).popped == s.popped
  {
  }

  lemma PollLowersRank(s: Sys)
    requires s.poll.ListKeys? || s.poll.Snap? || s.poll.Recheck?
    requires s.poll.Snap? && s.poll.todo != [] ==> s.poll.todo[0] in s.agent.store.series
    ensures Rank(PollNext(s)) < Rank(s)
  {
    var poll := PollNext(s).poll;
    assert PollRank(poll, |s.agent.store.keys|) < PollRank(s.poll, |s.agent.store.keys|);
    assert PollNext(s) == s.(poll := poll);
  }

  lemma RegisterLowersRank(s: Sys)
    requires s.poll.HaveSnapshot?
    ensures Rank(PollNext(s)) < Rank(s)
  {
    assert Unsent(PollNext(s).agent) == Unsent(s.agent);
  }

  lemma EnqueueLowersRank(s: Sys)
    requires s.poll.HaveBatch? && (s.agent.writing ==> s.agent.queue != [])
    ensures Rank(PollNext(s)) < Rank(s)
  {
    assert |Unsent(PollNext(s).agent)| == |Unsent(s.agent)| + 1;
  }

  lemma WritesLowerRank(s: Sys)
    ensures s.poll.CallWrite? ==> Rank(PollNext(s)) < Rank(s)
    ensures s.popped > 0 ==> Rank(Next(s, CallbackWrite)) < Rank(s)
  {
    WriteKeepsRank(s);
  }

  lemma WriteDoneLowersRank(s: Sys)
    requires s.due && s.agent.writing && s.agent.queue != []
    ensures Rank(Next(s, WriteDone)) < Rank(s)
  {
  }

  lemma ServerLowersRank(s: Sys)
    requires Enabled(s, ServerLoop)
    ensures Rank(ServerNext(s)) < Rank(s)
  {
  }

  lemma ReadLowersRank(s: Sys)
    requires s.toAgent != []
    ensures Rank(ReadNext(s)) < Rank(s)
  {
    assert Unsent(ReadNext(s).agent) == Unsent(s.agent);
  }

  lemma ProductiveStepsLowerRank(s: Sys, step: Step)
    requires Inv(s) && Productive(s, step)
    ensures Rank(Next(s, step)) < Rank(s)
  {
    match step
    case PollThread =>
      match s.poll {
        case HaveSnapshot(_, _, _) => RegisterLowersRank(s);
        case HaveBatch(_, _) => EnqueueLowersRank(s);
        case CallWrite => WritesLowerRank(s);
        case ListKeys | Recheck => PollLowersRank(s);
        case Snap(todo) =>
          if todo != [] { assert todo[0] in todo; }
          PollLowersRank(s);
      }
    case CallbackWrite => WritesLowerRank(s);
    case WriteDone => WriteDoneLowersRank(s);
    case ServerLoop => ServerLowersRank(s);
    case ReadDone => ReadLowersRank(s);
  }

  /** A step that opens a new round: the poll thread passes its gate. */
  ghost predicate OpensRound(s: Sys, step: Step) {
    step.PollThread? && s.poll.Gate? && s.agent.pending == map[]
  }

  /** What the other steps add: a new series at most one key's work, and only if the poll
      thread is about to list the keys; a new round the work of all keys; nothing else sets
      the stream back. */
  lemma OtherStepsSetBackAtMost(s: Sys, step: Step)
    requires Enabled(s, step) && !Productive(s, step)
    ensures Rank(Next(s, step)) <= Rank(s)
      + 9 * (|Next(s, step).agent.store.keys| - |s.agent.store.keys|)
      + (if OpensRound(s, step) then 4 + 9 * |s.agent.store.keys| else 0)
    ensures |s.agent.store.keys| <= |Next(s, step).agent.store.keys|
  {
    if step.WriteFailed? {
      assert Unsent(Next(s, step).agent) == Unsent(s.agent);
    }
  }

  /** As long as something is pending or queued and no write has failed, a productive step
      can be taken: there is no deadlock. */
  lemma SomeStepIsProductive(s: Sys) returns (step: Step)
    requires Inv(s) && !s.failed && (s.acked < |s.sent| || s.agent.queue != [])
    ensures Productive(s, step)
  {
    if !s.poll.Gate? { return PollThread; }
    if s.popped > 0 { return CallbackWrite; }
    if s.due { return WriteDone; }
    assert s.agent.queue == [];
    if s.toAgent != [] { return ReadDone; }
    assert |Flow(s)| == |s.published + Held(s.server) + s.toServer|;
    return ServerLoop;
  }

  // ----- Whole runs -----

  /** How many steps of a run move a round forward. */
  ghost function ProductiveSteps(s: Sys, steps: seq<Step>): nat
    requires Legal(s, steps)
    decreases |steps|
  {
    if steps == [] then 0
    else (if Productive(s, steps[0]) then 1 else 0) + ProductiveSteps(Next(s, steps[0]), steps[1..])
  }

  /** The work of the rounds a run opens, at 4 and 9 per series for each of them. */
  ghost function RoundWork(s: Sys, steps: seq<Step>, keys: nat): nat
    requires Legal(s, steps)
    decreases |steps|
  {
    if steps == [] then 0
    else (if OpensRound(s, steps[0]) then 4 + 9 * keys else 0) + RoundWork(Next(s, steps[0]), steps[1..], keys)
  }

  lemma ProductiveFrame(s: Sys, step: Step)
    requires Productive(s, step)
    ensures Next(s, step).failed == s.failed && Next(s, step).agent.store.keys == s.agent.store.keys
  {
    match step
    case PollThread => PollFrame(s);
    case WriteDone | CallbackWrite | ServerLoop | ReadDone =>
  }

  lemma PollFrame(s: Sys)
    ensures PollNext(s).failed == s.failed && PollNext(s).agent.store == s.agent.store
  {
    match s.poll
    case HaveSnapshot(key, snapshot, _) => assert PollNext(s).agent == s.agent.Register(key, snapshot);
    case HaveBatch(batch, _) => assert PollNext(s).agent == s.agent.Enqueue(batch);
    case CallWrite => assert PollNext(s).agent == s.agent.Write();
    case Gate | ListKeys | Snap(_) | Recheck => assert PollNext(s).agent == s.agent;
  }

  lemma FailureIsForGood(s: Sys, step: Step)
    requires Enabled(s, step)
    ensures s.failed ==> Next(s, step).failed
    ensures |s.sent| <= |Next(s, step).sent|
  {
    if step.PollThread? { PollFrame(s); }
  }

  /** One step's share of the bound, with `keys` at least the number of series afterwards. */
  lemma OneStepBudget(s: Sys, step: Step, keys: nat)
    requires Inv(s) && Enabled(s, step) && |Next(s, step).agent.store.keys| <= keys
    ensures
      var t := Next(s, step);
      (if Productive(s, step) then 1 else 0) + Rank(t) <= Rank(s)
        + 9 * (|t.agent.store.keys| - |s.agent.store.keys|) + (if OpensRound(s, step) then 4 + 9 * keys else 0)
    ensures |s.agent.store.keys| <= |Next(s, step).agent.store.keys|
  {
    if Productive(s, step) {
      ProductiveStepsLowerRank(s, step);
      ProductiveFrame(s, step);
    } else {
      OtherStepsSetBackAtMost(s, step);
    }
  }

  lemma {:induction false} RunBudget(s: Sys, steps: seq<Step>, keys: nat)
    requires Inv(s) && Legal(s, steps) && |Exec(s, steps).agent.store.keys| <= keys
    ensures
      var t := Exec(s, steps);
      && ProductiveSteps(s, steps) + Rank(t) <=
           Rank(s) + 9 * (|t.agent.store.keys| - |s.agent.store.keys|) + RoundWork(s, steps, keys)
      && Inv(t) && |s.agent.store.keys| <= |t.agent.store.keys| && |s.sent| <= |t.sent|
      && (s.failed ==> t.failed)
    decreases |steps|
  {
    if steps != [] {
      var t := Next(s, steps[0]);
      StepKeepsInv(s, steps[0]);
      FailureIsForGood(s, steps[0]);
      RunBudget(t, steps[1..], keys);
      OneStepBudget(s, steps[0], keys);
    }
  }

  /** Every round ends, whatever is collected meanwhile. In any legal run from a reachable
      state, the steps that move a round forward number at most Rank(s), plus 9 for every
      series that is new, plus 4 + 9 per series for every further round that is opened. And
      whenever no such step is left and no write has failed, every batch made is published and
      acknowledged and the queue is empty. */
  lemma {:induction false} EveryRoundCompletes(s: Sys, steps: seq<Step>)
    requires Reachable(s) && Legal(s, steps)
    ensures
      var t := Exec(s, steps);
      var keys := |t.agent.store.keys|;
      && ProductiveSteps(s, steps) + Rank(t) <= Rank(s) + 9 * (keys - |s.agent.store.keys|) + RoundWork(s, steps, keys)
      && |s.sent| <= |t.sent|
      && (NothingLeft(t) ==> Settled(t))
  {
    ReachableInv(s);
    RunBudget(s, steps, |Exec(s, steps).agent.store.keys|);
    if NothingLeft(Exec(s, steps)) { NothingLeftMeansSettled(Exec(s, steps)); }
  }

  ghost predicate NothingLeft(s: Sys) {
    !s.failed && forall step :: !Productive(s, step)
  }

  /** Every batch made is published and acknowledged, and none waits. */
  ghost predicate Settled(s: Sys) {
    s.agent.pending == map[] && s.agent.queue == [] && |s.sent| == s.acked == |s.published|
  }

  lemma NothingLeftMeansSettled(s: Sys)
    requires Inv(s) && NothingLeft(s)
    ensures Settled(s)
  {
    if s.acked < |s.sent| || s.agent.queue != [] {
      var step := SomeStepIsProductive(s);
      assert false;
    }
    EmptyPendingMeansAllAcked(s);
    assert |Flow(s)| >= |s.published|;
  }

  /** And such a completing schedule exists: productive steps only, none of them a failure. */
  lemma CompletionExists(s: Sys) returns (steps: seq<Step>)
    requires Inv(s) && !s.failed
    ensures Legal(s, steps) && ProductiveSteps(s, steps) == |steps|
    ensures Settled(Exec(s, steps))
    decreases Rank(s)
  {
    if s.acked == |s.sent| && s.agent.queue == [] {
      EmptyPendingMeansAllAcked(s);
      assert |Flow(s)| >= |s.published|;
      return [];
    }
    var step := SomeStepIsProductive(s);
    ProductiveStepsLowerRank(s, step);
    StepKeepsInv(s, step);
    ProductiveFrame(s, step);
    var rest := CompletionExists(Next(s, step));
    steps := [step] + rest;
    assert steps[1..] == rest;
  }
}
