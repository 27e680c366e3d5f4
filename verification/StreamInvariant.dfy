/**
 What every step of the metric stream keeps. The invariant counts batches: ids below
 `acked` are acknowledged, below `|published|` published, and so on up the pipeline, so
 that the wires, the write queue and the pending map are all slices of one sequence.
 */
module StreamInvariant {
  import opened Telemetry
  import opened SeriesBuffers
  import opened MetricsBuffers
  import opened Identity
  import opened StreamProtocol

  // ----- The history of one series -----

  /** End of the latest of the given batches that belongs to `key`; 0 if there is none. */
  ghost function LastEnd(h: seq<Sent>, key: BufferKey): nat {
    if h == [] then 0
    else if h[|h| - 1].key == key then h[|h| - 1].end
    else LastEnd(h[..|h| - 1], key)
  }

  /** Some of the given batches carries index `i` of the series' log. */
  ghost predicate Covered(h: seq<Sent>, key: BufferKey, i: nat) {
    exists j :: 0 <= j < |h| && h[j].key == key && h[j].start <= i < h[j].end
  }

  /** Every index below `bound` was carried by one of the batches or dropped by a full push. */
  ghost predicate Accounted(h: seq<Sent>, key: BufferKey, series: Series, bound: nat) {
    forall i: nat :: i < bound ==> i in series.evicted || Covered(h, key, i)
  }

  /** What a batch must be when the batches `h` were made before it. */
  ghost predicate Extends(h: seq<Sent>, e: Sent, store: Store) {
    && e.key in store.series
    && e.start < e.end <= |store.series[e.key].log|
    && e.samples == store.series[e.key].log[e.start..e.end]
    && e.start == Max(LastEnd(h, e.key), e.end - store.cap)
    && Accounted(h, e.key, store.series[e.key], e.start)
  }

  ghost predicate HistoryOk(h: seq<Sent>, store: Store) {
    forall j :: 0 <= j < |h| ==> Extends(h[..j], h[j], store)
  }

  /** The tail of one series, given the acknowledged batches. */
  ghost predicate TailOk(acked: seq<Sent>, key: BufferKey, series: Series) {
    && series.tail == Max(LastEnd(acked, key), |series.log| - series.cap)
    && Accounted(acked, key, series, series.tail)
  }

  ghost predicate TailsOk(acked: seq<Sent>, store: Store) {
    forall k :: k in store.series ==> TailOk(acked, k, store.series[k])
  }

  /** None of the batches from `from` on belongs to `key`. */
  ghost predicate Untouched(h: seq<Sent>, from: nat, key: BufferKey) {
    forall j :: from <= j < |h| ==> h[j].key != key
  }

  // ----- The pipeline -----

  ghost function Held(server: Server): seq<Batch> {
    if server.Publishing? then [server.batch] else []
  }

  /** Queued batches that were not handed to gRPC yet. */
  ghost function Unsent(a: Agent): seq<Batch> {
    if a.writing && a.queue != [] then a.queue[1..] else a.queue
  }

  ghost function InHand(poll: Poll): seq<Batch> {
    if poll.HaveBatch? then [poll.batch] else []
  }

  /** All batches ever made, from the oldest published to the one in the poll thread's hand. */
  ghost function Flow(s: Sys): seq<Batch> {
    s.published + Held(s.server) + s.toServer + Unsent(s.agent) + InHand(s.poll)
  }

  ghost predicate FlowOk(flow: seq<Batch>, sent: seq<Sent>) {
    && |flow| == |sent|
    && forall i :: 0 <= i < |sent| ==> flow[i] == MakeBatch(i, sent[i].key, sent[i].samples)
  }

  ghost predicate AcksOk(server: Server, published: seq<Batch>, toAgent: seq<nat>, acked: nat) {
    && (server.Acking? ==> published != [] && server.batch == published[|published| - 1])
    && acked + |toAgent| + (if server.Acking? then 1 else 0) == |published|
    && forall j :: 0 <= j < |toAgent| ==> toAgent[j] == acked + j
  }

  ghost function Entry(e: Sent): Pending {
    Pending(e.key, Snapshot(e.samples, e.end))
  }

  /** Exactly the batches that were made and not acknowledged are pending. */
  ghost predicate PendingOk(pending: map<nat, Pending>, sent: seq<Sent>, acked: nat) {
    && (forall i :: i in pending <==> acked <= i < |sent|)
    && forall i :: acked <= i < |sent| ==> pending[i] == Entry(sent[i])
  }

  /** Pending batches belong to different series: they were made in one round. */
  ghost predicate RoundOk(sent: seq<Sent>, acked: nat) {
    && acked <= |sent|
    && forall i, j :: acked <= i < j < |sent| ==> sent[i].key != sent[j].key
  }

  /** The keys still to be visited are known, different, and have nothing pending. */
  ghost predicate TodoOk(todo: seq<BufferKey>, sent: seq<Sent>, acked: nat, store: Store) {
    && Distinct(todo)
    && forall k :: k in todo ==> k in store.series && Untouched(sent, acked, k)
  }

  /** The history entry of a snapshot that is about to become a batch. */
  ghost function Draft(key: BufferKey, snapshot: Snapshot): Sent {
    Sent(key, Max(snapshot.end - |snapshot.samples|, 0), snapshot.end, snapshot.samples)
  }

  ghost predicate PollOk(poll: Poll, sent: seq<Sent>, acked: nat, store: Store) {
    match poll
    case Gate => true
    case ListKeys => acked == |sent|
    case Snap(todo) => TodoOk(todo, sent, acked, store)
    case HaveSnapshot(key, snapshot, todo) =>
      TodoOk([key] + todo, sent, acked, store) && Extends(sent, Draft(key, snapshot), store)
    case HaveBatch(_, todo) => TodoOk(todo, sent, acked, store)
    case Recheck => true
    case CallWrite => true
  }

  ghost predicate WriterOk(writing: bool, queue: seq<Batch>, due: bool, failed: bool) {
    && (writing <==> due || failed)
    && !(due && failed)
    && (writing ==> queue != [])
  }

  /** A queued batch that nobody is writing has somebody who is about to write it. */
  ghost predicate NotStranded(writing: bool, queue: seq<Batch>, popped: nat, poll: Poll) {
    !writing && queue != [] ==> popped > 0 || !(poll.Gate? || poll.ListKeys?)
  }

  ghost predicate Inv(s: Sys) {
    && s.agent.store.Valid()
    && s.agent.nextId == |s.sent|
    && FlowOk(Flow(s), s.sent)
    && AcksOk(s.server, s.published, s.toAgent, s.acked)
    && PendingOk(s.agent.pending, s.sent, s.acked)
    && RoundOk(s.sent, s.acked)
    && PollOk(s.poll, s.sent, s.acked, s.agent.store)
    && HistoryOk(s.sent, s.agent.store)
    && TailsOk(s.sent[..s.acked], s.agent.store)
    && WriterOk(s.agent.writing, s.agent.queue, s.due, s.failed)
    && NotStranded(s.agent.writing, s.agent.queue, s.popped, s.poll)
    && s.unknownAcks == 0 && !s.fault
  }

  // ----- Facts about histories -----

  lemma {:induction false} LastEndSkips(h: seq<Sent>, from: nat, key: BufferKey)
    requires from <= |h| && Untouched(h, from, key)
    ensures LastEnd(h, key) == LastEnd(h[..from], key)
  {
    if from < |h| {
      LastEndSkips(h[..|h| - 1], from, key);
      assert h[..|h| - 1][..from] == h[..from];
    } else {
      assert h[..from] == h;
    }
  }

  lemma CoveredGrows(h: seq<Sent>, n: nat, key: BufferKey, i: nat)
    requires n <= |h| && Covered(h[..n], key, i)
    ensures Covered(h, key, i)
  {
    var j :| 0 <= j < n && h[..n][j].key == key && h[..n][j].start <= i < h[..n][j].end;
    assert h[j].key == key;
  }

  lemma AccountedGrows(h: seq<Sent>, n: nat, key: BufferKey, series: Series, bound: nat)
    requires n <= |h| && Accounted(h[..n], key, series, bound)
    ensures Accounted(h, key, series, bound)
  {
    forall i: nat | i < bound ensures i in series.evicted || Covered(h, key, i) {
      if i !in series.evicted { CoveredGrows(h, n, key, i); }
    }
  }

  // ----- The collector -----

  /** `t` is `s` after some more pushes. */
  ghost predicate Grown(s: Store, t: Store) {
    && t.cap == s.cap
    && forall k :: k in s.series ==>
         k in t.series && s.series[k].log <= t.series[k].log && s.series[k].evicted <= t.series[k].evicted
  }

  lemma ExtendsGrows(h: seq<Sent>, e: Sent, s: Store, t: Store)
    requires Extends(h, e, s) && Grown(s, t)
    ensures Extends(h, e, t)
  {
    assert t.series[e.key].log[e.start..e.end] == s.series[e.key].log[e.start..e.end];
  }

  lemma PushGrows(s: Store, key: BufferKey, x: Sample)
    requires s.Valid()
    ensures Grown(s, s.AddSample(key, x))
  {
  }

  /** A push moves the tail only by dropping the sample it points at. */
  lemma PushKeepsTail(acked: seq<Sent>, key: BufferKey, series: Series, x: Sample)
    requires series.Valid() && TailOk(acked, key, series)
    ensures TailOk(acked, key, series.Push(x))
  {
  }

  lemma PushKeepsTails(acked: seq<Sent>, s: Store, key: BufferKey, x: Sample)
    requires s.Valid() && TailsOk(acked, s)
    requires LastEnd(acked, key) > 0 ==> key in s.series
    ensures TailsOk(acked, s.AddSample(key, x))
  {
    var t := s.AddSample(key, x);
    forall k | k in t.series ensures TailOk(acked, k, t.series[k]) {
      if k == key {
        PushKeepsTail(acked, k, if k in s.series then s.series[k] else EmptySeries(s.cap), x);
      } else {
        assert t.series[k] == s.series[k];
      }
    }
  }

  lemma {:induction false} LastEndIsKnown(h: seq<Sent>, store: Store, key: BufferKey)
    requires HistoryOk(h, store)
    requires LastEnd(h, key) > 0
    ensures key in store.series
  {
    var last := |h| - 1;
    assert Extends(h[..last], h[last], store);
    if h[last].key != key {
      forall j | 0 <= j < last ensures Extends(h[..last][..j], h[..last][j], store) {
        assert h[..last][..j] == h[..j];
      }
      LastEndIsKnown(h[..last], store, key);
    }
  }

  lemma HistoryPrefix(h: seq<Sent>, n: nat, store: Store)
    requires n <= |h| && HistoryOk(h, store)
    ensures HistoryOk(h[..n], store)
  {
    forall j | 0 <= j < n ensures Extends(h[..n][..j], h[..n][j], store) {
      assert h[..n][..j] == h[..j];
    }
  }

  lemma TodoGrows(todo: seq<BufferKey>, sent: seq<Sent>, acked: nat, s: Store, t: Store)
    requires TodoOk(todo, sent, acked, s) && Grown(s, t)
    ensures TodoOk(todo, sent, acked, t)
  {
  }

  lemma PollGrows(poll: Poll, sent: seq<Sent>, acked: nat, s: Store, t: Store)
    requires PollOk(poll, sent, acked, s) && Grown(s, t)
    ensures PollOk(poll, sent, acked, t)
  {
    match poll
    case Gate | ListKeys | Recheck | CallWrite =>
    case Snap(todo) => TodoGrows(todo, sent, acked, s, t);
    case HaveBatch(_, todo) => TodoGrows(todo, sent, acked, s, t);
    case HaveSnapshot(key, snapshot, todo) =>
      TodoGrows([key] + todo, sent, acked, s, t);
      ExtendsGrows(sent, Draft(key, snapshot), s, t);
  }

  lemma HistoryGrows(h: seq<Sent>, s: Store, t: Store)
    requires HistoryOk(h, s) && Grown(s, t)
    ensures HistoryOk(h, t)
  {
    forall j | 0 <= j < |h| ensures Extends(h[..j], h[j], t) {
      ExtendsGrows(h[..j], h[j], s, t);
    }
  }

  lemma CollectKeepsInv(s: Sys, m: Metric)
    requires Inv(s)
    ensures Inv(Next(s, Collect(m)))
  {
    if m.metricType != METRIC_TYPE_UNSPECIFIED {
      var key, x := MakeBufferKey(m), Sample(m.timestamp, m.value);
      var store := s.agent.store.AddSample(key, x);
      AddSampleKeepsValid(s.agent.store, key, x);
      PushGrows(s.agent.store, key, x);
      HistoryGrows(s.sent, s.agent.store, store);
      PollGrows(s.poll, s.sent, s.acked, s.agent.store, store);
      HistoryPrefix(s.sent, s.acked, s.agent.store);
      if LastEnd(s.sent[..s.acked], key) > 0 {
        LastEndIsKnown(s.sent[..s.acked], s.agent.store, key);
      }
      PushKeepsTails(s.sent[..s.acked], s.agent.store, key, x);
      assert Flow(Next(s, Collect(m))) == Flow(s);
    }
  }

  // ----- Acknowledgements -----

  /** Acknowledging the next batch of a series moves its tail to the batch's end, unless
      pushes moved it further already; nothing below it is lost track of. */
  lemma AckKeepsTail(h: seq<Sent>, e: Sent, store: Store)
    requires store.Valid() && Extends(h, e, store) && TailOk(h, e.key, store.series[e.key])
    ensures TailOk(h + [e], e.key, store.series[e.key].Ack(e.end))
    ensures store.series[e.key].Ack(e.end).Valid()
  {
    var series, k := store.series[e.key], e.key;
    var after := series.Ack(e.end);
    assert LastEnd(h + [e], k) == e.end;
    forall i: nat | i < after.tail ensures i in after.evicted || Covered(h + [e], k, i) {
      if i < series.tail {
        if i !in series.evicted {
          assert (h + [e])[..|h|] == h;
          CoveredGrows(h + [e], |h|, k, i);
        }
      } else {
        assert e.start <= series.tail <= i < e.end;
        assert (h + [e])[|h|] == e;
      }
    }
  }

  lemma OtherTailsStay(h: seq<Sent>, e: Sent, key: BufferKey, series: Series)
    requires TailOk(h, key, series) && e.key != key
    ensures TailOk(h + [e], key, series)
  {
    assert (h + [e])[..|h|] == h;
    AccountedGrows(h + [e], |h|, key, series, series.tail);
  }

  lemma AckKeepsStore(sent: seq<Sent>, acked: nat, s: Store)
    requires s.Valid() && acked < |sent| && HistoryOk(sent, s) && TailsOk(sent[..acked], s)
    ensures sent[acked].key in s.series
    ensures
      var t := s.Ack(sent[acked].key, sent[acked].end);
      t.Valid() && Grown(s, t) && TailsOk(sent[..acked + 1], t)
  {
    var e := sent[acked];
    assert Extends(sent[..acked], e, s);
    var t := s.Ack(e.key, e.end);
    assert sent[..acked + 1] == sent[..acked] + [e];
    AckKeepsTail(sent[..acked], e, s);
    forall k | k in t.series
      ensures TailOk(sent[..acked + 1], k, t.series[k]) && t.series[k].Valid() && t.series[k].cap == t.cap
    {
      if k != e.key {
        assert t.series[k] == s.series[k];
        OtherTailsStay(sent[..acked], e, k, t.series[k]);
      }
    }
  }

  /** The received ack names the oldest pending batch. */
  lemma AckIsExpected(s: Sys)
    requires Inv(s) && s.toAgent != []
    ensures s.toAgent[0] == s.acked < |s.sent|
    ensures s.acked in s.agent.pending && s.agent.pending[s.acked] == Entry(s.sent[s.acked])
    ensures s.sent[s.acked].key in s.agent.store.series
  {
    assert |Flow(s)| >= |s.published|;
    assert Extends(s.sent[..s.acked], s.sent[s.acked], s.agent.store);
  }

  lemma ReadKeepsInv(s: Sys)
    requires Inv(s) && s.toAgent != []
    ensures Inv(ReadNext(s))
  {
    AckIsExpected(s);
    var t := ReadNext(s);
    var e := s.sent[s.acked];
    assert t.agent.store == s.agent.store.Ack(e.key, e.end);
    AckKeepsStore(s.sent, s.acked, s.agent.store);
    HistoryGrows(s.sent, s.agent.store, t.agent.store);
    PollGrows(s.poll, s.sent, s.acked, s.agent.store, t.agent.store);
    PollAfterAck(s.poll, s.sent, s.acked, t.agent.store);
    PendingAfterAck(s.agent.pending, s.sent, s.acked);
    AcksAfterAck(s.server, s.published, s.toAgent, s.acked);
    assert Flow(t) == Flow(s);
  }

  lemma PollAfterAck(poll: Poll, sent: seq<Sent>, acked: nat, store: Store)
    requires PollOk(poll, sent, acked, store) && acked < |sent|
    ensures PollOk(poll, sent, acked + 1, store)
  {
  }

  lemma PendingAfterAck(pending: map<nat, Pending>, sent: seq<Sent>, acked: nat)
    requires PendingOk(pending, sent, acked) && acked < |sent|
    ensures PendingOk(pending - {acked}, sent, acked + 1)
  {
  }

  lemma AcksAfterAck(server: Server, published: seq<Batch>, toAgent: seq<nat>, acked: nat)
    requires AcksOk(server, published, toAgent, acked) && toAgent != []
    ensures AcksOk(server, published, toAgent[1..], acked + 1)
  {
  }

  // ----- The server -----

  /** Steps that move no batch leave the pipeline as it was. */
  lemma SameFlow(s: Sys, t: Sys)
    requires s.published == t.published && s.server == t.server && s.toServer == t.toServer
    requires Unsent(s.agent) == Unsent(t.agent) && InHand(s.poll) == InHand(t.poll)
    ensures Flow(s) == Flow(t)
  {
  }

  lemma ServerKeepsInv(s: Sys)
    requires Inv(s) && Enabled(s, ServerLoop)
    ensures Inv(ServerNext(s))
  {
    ServerKeepsFlow(s);
    if s.server.Acking? {
      AckCarriesItsPosition(s);
    }
    ServerKeepsAcks(s);
  }

  lemma AckCarriesItsPosition(s: Sys)
    requires FlowOk(Flow(s), s.sent) && s.published != []
    ensures s.published[|s.published| - 1].id == |s.published| - 1
  {
    assert s.published[|s.published| - 1] == Flow(s)[|s.published| - 1];
  }

  lemma ServerKeepsAcks(s: Sys)
    requires Enabled(s, ServerLoop) && AcksOk(s.server, s.published, s.toAgent, s.acked)
    requires s.server.Acking? ==> s.server.batch.id == |s.published| - 1
    ensures var t := ServerNext(s); AcksOk(t.server, t.published, t.toAgent, t.acked)
  {
  }

  lemma ServerKeepsFlow(s: Sys)
    requires Enabled(s, ServerLoop)
    ensures Flow(ServerNext(s)) == Flow(s)
  {
    match s.server
    case Receiving => FrontMoves(s.published, s.toServer, Unsent(s.agent), InHand(s.poll));
    case Publishing(b) => HeldMoves(s.published, b, s.toServer);
    case Acking(b) =>
  }

  lemma FrontMoves(a: seq<Batch>, c: seq<Batch>, d: seq<Batch>, e: seq<Batch>)
    requires c != []
    ensures a + [c[0]] + c[1..] + d + e == a + [] + c + d + e
  {
    assert c == [c[0]] + c[1..];
    assert a + [c[0]] + c[1..] == a + [] + c;
  }

  lemma HeldMoves(a: seq<Batch>, b: Batch, c: seq<Batch>)
    ensures (a + [b]) + [] + c == a + [b] + c
  {
  }

  // ----- Writing -----

  lemma WriteKeepsInv(s: Sys)
    requires Inv(s)
    ensures
      var t := DoWrite(s);
      && Inv(t) && t.poll == s.poll
      && (t.agent.writing || t.agent.queue == [])
  {
    WriteKeepsFlow(s);
  }

  lemma WriteKeepsFlow(s: Sys)
    ensures Flow(DoWrite(s)) == Flow(s)
  {
    if s.agent.StartsWrite() {
      var q := s.agent.queue;
      assert q == [q[0]] + q[1..];
      var front := s.published + Held(s.server);
      assert front + (s.toServer + [q[0]]) + q[1..] == front + s.toServer + q;
    }
  }

  lemma WriteDoneKeepsInv(s: Sys)
    requires Inv(s) && s.due
    ensures Inv(Next(s, WriteDone)) && Inv(Next(s, WriteFailed))
  {
    assert Flow(Next(s, WriteDone)) == Flow(s);
    assert Flow(Next(s, WriteFailed)) == Flow(s);
  }

  // ----- The poll thread -----

  /** A queued batch that nobody is writing is pending. */
  lemma IdleQueueIsPending(s: Sys)
    requires Inv(s) && !s.agent.writing && s.agent.queue != []
    ensures s.agent.pending != map[] && s.acked < |s.sent|
  {
    assert |Flow(s)| >= |s.published| + |s.agent.queue|;
    assert s.acked in s.agent.pending;
  }

  lemma EmptyPendingMeansAllAcked(s: Sys)
    requires Inv(s)
    ensures s.agent.pending == map[] <==> s.acked == |s.sent|
  {
    if s.acked < |s.sent| {
      assert s.acked in s.agent.pending;
    }
  }

  /** Visiting the next key: what the snapshot sees starts where the last batch ended,
      unless the ring has overwritten samples since. */
  lemma SnapshotExtends(sent: seq<Sent>, acked: nat, store: Store, key: BufferKey)
    requires acked <= |sent| && key in store.series && Untouched(sent, acked, key)
    requires store.series[key].cap == store.cap && TailOk(sent[..acked], key, store.series[key])
    requires store.series[key].tail < |store.series[key].log|
    ensures
      var series := store.series[key];
      Extends(sent, Draft(key, Snapshot(series.log[series.tail..], |series.log|)), store)
  {
    var series := store.series[key];
    LastEndSkips(sent, acked, key);
    AccountedGrows(sent, acked, key, series, series.tail);
    assert series.log[series.tail..] == series.log[series.tail..|series.log|];
  }

  /** A step that only moves the poll thread. */
  lemma PollOnly(s: Sys, poll: Poll)
    requires Inv(s) && PollOk(poll, s.sent, s.acked, s.agent.store) && InHand(poll) == InHand(s.poll)
    requires NotStranded(s.agent.writing, s.agent.queue, s.popped, poll)
    ensures Inv(s.(poll := poll))
  {
    SameFlow(s, s.(poll := poll));
  }

  lemma SnapKeepsInv(s: Sys)
    requires Inv(s) && s.poll.Snap?
    ensures Inv(PollNext(s))
  {
    if s.poll.todo != [] {
      SnapKeepsPoll(s.poll.todo, s.sent, s.acked, s.agent.store);
    }
    PollOnly(s, PollNext(s).poll);
  }

  lemma SnapKeepsPoll(todo: seq<BufferKey>, sent: seq<Sent>, acked: nat, store: Store)
    requires todo != [] && TodoOk(todo, sent, acked, store) && acked <= |sent|
    requires store.Valid() && TailsOk(sent[..acked], store)
    ensures todo[0] in store.series
    ensures
      var series := store.series[todo[0]];
      && PollOk(Snap(todo[1..]), sent, acked, store)
      && (series.tail < |series.log| ==>
            PollOk(HaveSnapshot(todo[0], Snapshot(series.log[series.tail..], |series.log|), todo[1..]), sent, acked, store))
  {
    assert todo[0] in todo;
    assert [todo[0]] + todo[1..] == todo;
    var series := store.series[todo[0]];
    if series.tail < |series.log| {
      SnapshotExtends(sent, acked, store, todo[0]);
    }
  }

  lemma RegisterKeepsInv(s: Sys)
    requires Inv(s) && s.poll.HaveSnapshot?
    ensures Inv(PollNext(s))
  {
    var key, snapshot, todo := s.poll.key, s.poll.snapshot, s.poll.todo;
    var e := Draft(key, snapshot);
    RegisterKeepsFlow(s);
    RegisterKeepsHistory(s.agent, s.sent, s.acked, e);
    TodoAfterRegister(key, todo, s.sent, e, s.acked, s.agent.store);
  }

  lemma RegisterKeepsHistory(a: Agent, sent: seq<Sent>, acked: nat, e: Sent)
    requires PendingOk(a.pending, sent, acked) && acked <= |sent|
    requires HistoryOk(sent, a.store) && Extends(sent, e, a.store) && TailsOk(sent[..acked], a.store)
    ensures PendingOk(a.pending[|sent| := Entry(e)], sent + [e], acked)
    ensures HistoryOk(sent + [e], a.store) && TailsOk((sent + [e])[..acked], a.store)
  {
    PendingAfterRegister(a.pending, sent, e, acked);
    HistoryAppend(sent, e, a.store);
    PrefixOfAppend(sent, e, acked);
  }

  lemma PrefixOfAppend(h: seq<Sent>, e: Sent, n: nat)
    requires n <= |h|
    ensures (h + [e])[..n] == h[..n]
  {
  }

  lemma RegisterKeepsFlow(s: Sys)
    requires FlowOk(Flow(s), s.sent) && s.poll.HaveSnapshot? && s.agent.nextId == |s.sent|
    ensures FlowOk(Flow(PollNext(s)), PollNext(s).sent)
  {
    assert Flow(PollNext(s)) == Flow(s) + [PollNext(s).poll.batch];
  }

  lemma PendingAfterRegister(pending: map<nat, Pending>, sent: seq<Sent>, e: Sent, acked: nat)
    requires PendingOk(pending, sent, acked) && acked <= |sent|
    ensures PendingOk(pending[|sent| := Entry(e)], sent + [e], acked)
  {
  }

  lemma HistoryAppend(h: seq<Sent>, e: Sent, store: Store)
    requires HistoryOk(h, store) && Extends(h, e, store)
    ensures HistoryOk(h + [e], store)
  {
    forall j | 0 <= j < |h + [e]| ensures Extends((h + [e])[..j], (h + [e])[j], store) {
      assert (h + [e])[..j] == h[..j];
      if j == |h| { assert h[..j] == h; }
    }
  }

  /** Once its batch exists the visited key has something pending; the others still do not. */
  lemma TodoAfterRegister(key: BufferKey, todo: seq<BufferKey>, sent: seq<Sent>, e: Sent, acked: nat, store: Store)
    requires TodoOk([key] + todo, sent, acked, store) && e.key == key && RoundOk(sent, acked)
    ensures TodoOk(todo, sent + [e], acked, store) && RoundOk(sent + [e], acked)
  {
    var all := [key] + todo;
    assert all[0] == key && key in all;
    assert Untouched(sent, acked, key);
    forall i | 0 <= i < |todo| ensures todo[i] in store.series && Untouched(sent + [e], acked, todo[i]) {
      assert all[i + 1] == todo[i] && todo[i] in all;
      assert Untouched(sent, acked, todo[i]);
    }
    forall i, j | 0 <= i < j < |todo| ensures todo[i] != todo[j] {
      assert all[i + 1] == todo[i] && all[j + 1] == todo[j];
    }
  }

  /** Seeing `pending` empty is safe to act on: then no idle batch is in the queue. */
  lemma RecheckKeepsInv(s: Sys)
    requires Inv(s) && (s.poll.Gate? || s.poll.Recheck?)
    ensures Inv(PollNext(s))
  {
    EmptyPendingMeansAllAcked(s);
    if s.agent.pending == map[] && !s.agent.writing && s.agent.queue != [] {
      IdleQueueIsPending(s);
    }
    PollOnly(s, PollNext(s).poll);
  }

  lemma ListKeysKeepsInv(s: Sys)
    requires Inv(s) && s.poll.ListKeys?
    ensures Inv(PollNext(s))
  {
    PollOnly(s, PollNext(s).poll);
  }

  lemma EnqueueKeepsInv(s: Sys)
    requires Inv(s) && s.poll.HaveBatch?
    ensures Inv(PollNext(s))
  {
    EnqueueKeepsFlow(s);
  }

  lemma EnqueueKeepsFlow(s: Sys)
    requires s.poll.HaveBatch? && (s.agent.writing ==> s.agent.queue != [])
    ensures Flow(PollNext(s)) == Flow(s)
  {
    assert Unsent(PollNext(s).agent) == Unsent(s.agent) + [s.poll.batch];
  }

  lemma PollKeepsInv(s: Sys)
    requires Inv(s)
    ensures Inv(PollNext(s))
  {
    match s.poll
    case Gate => RecheckKeepsInv(s);
    case ListKeys => ListKeysKeepsInv(s);
    case Snap(_) => SnapKeepsInv(s);
    case HaveSnapshot(_, _, _) => RegisterKeepsInv(s);
    case HaveBatch(_, _) => EnqueueKeepsInv(s);
    case Recheck => RecheckKeepsInv(s);
    case CallWrite =>
      WriteKeepsInv(s);
      assert Flow(PollNext(s)) == Flow(DoWrite(s));
  }

  // ----- Every run -----

  lemma InitInv(cap: nat)
    ensures Inv(Init(cap))
  {
  }

  lemma StepKeepsInv(s: Sys, step: Step)
    requires Inv(s) && Enabled(s, step)
    ensures Inv(Next(s, step))
  {
    match step
    case Collect(m) => CollectKeepsInv(s, m);
    case PollThread => PollKeepsInv(s);
    case WriteDone => WriteDoneKeepsInv(s);
    case WriteFailed => WriteDoneKeepsInv(s);
    case CallbackWrite =>
      WriteKeepsInv(s);
      assert Flow(Next(s, CallbackWrite)) == Flow(DoWrite(s));
    case ServerLoop => ServerKeepsInv(s);
    case ReadDone => ReadKeepsInv(s);
  }

  lemma {:induction false} RunsKeepInv(s: Sys, steps: seq<Step>)
    requires Inv(s) && Legal(s, steps)
    ensures Inv(Exec(s, steps))
    decreases |steps|
  {
    if steps != [] {
      StepKeepsInv(s, steps[0]);
      RunsKeepInv(Next(s, steps[0]), steps[1..]);
    }
  }

  /** The states some run reaches. */
  ghost predicate Reachable(s: Sys) {
    exists cap: nat, steps: seq<Step> :: Legal(Init(cap), steps) && Exec(Init(cap), steps) == s
  }

  lemma ReachableInv(s: Sys)
    requires Reachable(s)
    ensures Inv(s)
  {
    var cap: nat, steps: seq<Step> :| Legal(Init(cap), steps) && Exec(Init(cap), steps) == s;
    InitInv(cap);
    RunsKeepInv(Init(cap), steps);
  }
}
