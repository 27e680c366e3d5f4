/**
 The stream sends: a round of the poll thread takes up everything that was in the rings when
 it began, and from every reachable state without a failed write a schedule exists after which
 every sample that was not already overwritten has been published.
 */
module StreamService {
  import opened Telemetry
  import opened SeriesBuffers
  import opened MetricsBuffers
  import opened Identity
  import opened StreamProtocol
  import opened StreamInvariant
  import opened StreamTheorems

  // ----- A round takes up everything -----

  /** Nothing below `n` of the series is missing: evicted, or carried by some batch made. */
  ghost predicate TakenUp(sent: seq<Sent>, store: Store, key: BufferKey, n: nat) {
    key in store.series && n <= |store.series[key].log| && Accounted(sent, key, store.series[key], n)
  }

  /** The poll thread is still going to visit the key. */
  ghost predicate StillToVisit(poll: Poll, key: BufferKey) {
    match poll
    case ListKeys => true
    case Snap(todo) => key in todo
    case HaveSnapshot(_, _, todo) => key in todo
    case HaveBatch(_, todo) => key in todo
    case Gate | Recheck | CallWrite => false
  }

  /** The snapshot in the poll thread's hand covers what is missing. */
  ghost predicate InHandCovers(poll: Poll, sent: seq<Sent>, store: Store, key: BufferKey, n: nat) {
    poll.HaveSnapshot? && poll.key == key && TakenUp(sent + [Draft(key, poll.snapshot)], store, key, n)
  }

  /** The first `n` samples of a series are taken up, or about to be in this round. */
  ghost predicate Promised(s: Sys, key: BufferKey, n: nat) {
    && key in s.agent.store.series && n <= |s.agent.store.series[key].log|
    && (|| TakenUp(s.sent, s.agent.store, key, n)
        || StillToVisit(s.poll, key)
        || InHandCovers(s.poll, s.sent, s.agent.store, key, n))
  }

  lemma TakenUpGrows(sent: seq<Sent>, s: Store, t: Store, key: BufferKey, n: nat)
    requires TakenUp(sent, s, key, n) && Grown(s, t)
    ensures TakenUp(sent, t, key, n)
  {
  }

  lemma TakenUpLater(sent: seq<Sent>, more: seq<Sent>, store: Store, key: BufferKey, n: nat)
    requires TakenUp(sent, store, key, n)
    ensures TakenUp(sent + more, store, key, n)
  {
    assert (sent + more)[..|sent|] == sent;
    AccountedGrows(sent + more, |sent|, key, store.series[key], n);
  }

  /** A step that leaves poll thread and history alone and only adds to the logs. */
  lemma PromiseSurvives(s: Sys, t: Sys, key: BufferKey, n: nat)
    requires Promised(s, key, n) && t.poll == s.poll && t.sent == s.sent && Grown(s.agent.store, t.agent.store)
    ensures Promised(t, key, n)
  {
    if TakenUp(s.sent, s.agent.store, key, n) {
      TakenUpGrows(s.sent, s.agent.store, t.agent.store, key, n);
    } else if InHandCovers(s.poll, s.sent, s.agent.store, key, n) {
      TakenUpGrows(s.sent + [Draft(key, s.poll.snapshot)], s.agent.store, t.agent.store, key, n);
    }
  }

  /** The whole log is taken up once its unsent part is. */
  lemma SnapshotTakesUpAll(sent: seq<Sent>, acked: nat, store: Store, key: BufferKey)
    requires acked <= |sent| && key in store.series && store.series[key].Valid()
    requires TailOk(sent[..acked], key, store.series[key])
    ensures
      var series := store.series[key];
      var draft := Draft(key, Snapshot(series.log[series.tail..], |series.log|));
      TakenUp(sent + [draft], store, key, |series.log|)
  {
    var series := store.series[key];
    var draft := Draft(key, Snapshot(series.log[series.tail..], |series.log|));
    var all := sent + [draft];
    forall i: nat | i < |series.log| ensures i in series.evicted || Covered(all, key, i) {
      if i < series.tail {
        if i !in series.evicted {
          assert all[..acked] == sent[..acked];
          CoveredGrows(all, acked, key, i);
        }
      } else {
        assert all[|sent|] == draft;
      }
    }
  }

  lemma NothingUnsentIsTakenUp(sent: seq<Sent>, acked: nat, store: Store, key: BufferKey)
    requires acked <= |sent| && key in store.series && TailOk(sent[..acked], key, store.series[key])
    requires |store.series[key].log| <= store.series[key].tail
    ensures TakenUp(sent, store, key, |store.series[key].log|)
  {
    AccountedGrows(sent, acked, key, store.series[key], |store.series[key].log|);
  }

  lemma TakenUpBelow(sent: seq<Sent>, store: Store, key: BufferKey, m: nat, n: nat)
    requires TakenUp(sent, store, key, m) && n <= m
    ensures TakenUp(sent, store, key, n)
  {
  }

  /** Visiting the key: either nothing is unsent, or the snapshot has it all. */
  lemma VisitKeepsPromise(s: Sys, key: BufferKey, n: nat)
    requires Inv(s) && s.poll.Snap? && s.poll.todo != [] && s.poll.todo[0] == key
    requires key in s.agent.store.series && n <= |s.agent.store.series[key].log|
    ensures Promised(PollNext(s), key, n)
  {
    var store := s.agent.store;
    var series := store.series[key];
    assert TailOk(s.sent[..s.acked], key, series) && series.Valid();
    if |series.log| <= series.tail {
      NothingUnsentIsTakenUp(s.sent, s.acked, store, key);
      TakenUpBelow(s.sent, store, key, |series.log|, n);
    } else {
      SnapshotTakesUpAll(s.sent, s.acked, store, key);
      var draft := Draft(key, Snapshot(series.log[series.tail..], |series.log|));
      TakenUpBelow(s.sent + [draft], store, key, |series.log|, n);
    }
  }

  lemma SnapKeepsPromise(s: Sys, key: BufferKey, n: nat)
    requires Inv(s) && s.poll.Snap? && Promised(s, key, n)
    ensures Promised(PollNext(s), key, n)
  {
    var todo := s.poll.todo;
    if todo != [] {
      assert todo == [todo[0]] + todo[1..];
      assert todo[0] in todo;
      if todo[0] == key { VisitKeepsPromise(s, key, n); }
    }
  }

  lemma RegisterKeepsPromise(s: Sys, key: BufferKey, n: nat)
    requires s.poll.HaveSnapshot? && Promised(s, key, n)
    ensures Promised(PollNext(s), key, n)
  {
    var e := Draft(s.poll.key, s.poll.snapshot);
    assert PollNext(s).sent == s.sent + [e] && PollNext(s).agent.store == s.agent.store;
    if TakenUp(s.sent, s.agent.store, key, n) {
      TakenUpLater(s.sent, [e], s.agent.store, key, n);
    }
  }

  /** The poll thread between visits: it forgets no key. */
  lemma WalkKeepsPromise(s: Sys, key: BufferKey, n: nat)
    requires s.poll.Gate? || s.poll.ListKeys? || s.poll.HaveBatch? || s.poll.Recheck? || s.poll.CallWrite?
    requires key in s.agent.store.keys && Promised(s, key, n)
    ensures Promised(PollNext(s), key, n)
  {
    PollFrame(s);
    assert PollNext(s).sent == s.sent;
  }

  lemma PollKeepsPromise(s: Sys, key: BufferKey, n: nat)
    requires Inv(s) && Promised(s, key, n)
    ensures Promised(PollNext(s), key, n)
  {
    match s.poll
    case Snap(_) => SnapKeepsPromise(s, key, n);
    case HaveSnapshot(_, _, _) => RegisterKeepsPromise(s, key, n);
    case _ => WalkKeepsPromise(s, key, n);
  }

  lemma StepKeepsPromise(s: Sys, step: Step, key: BufferKey, n: nat)
    requires Inv(s) && Enabled(s, step) && Promised(s, key, n)
    ensures Promised(Next(s, step), key, n)
  {
    if step.PollThread? {
      PollKeepsPromise(s, key, n);
    } else {
      OtherStepsGrow(s, step);
      PromiseSurvives(s, Next(s, step), key, n);
    }
  }

  lemma OtherStepsGrow(s: Sys, step: Step)
    requires Inv(s) && Enabled(s, step) && !step.PollThread?
    ensures
      var t := Next(s, step);
      t.poll == s.poll && t.sent == s.sent && Grown(s.agent.store, t.agent.store)
  {
    match step
    case Collect(m) =>
      if m.metricType != METRIC_TYPE_UNSPECIFIED { PushGrows(s.agent.store, MakeBufferKey(m), Sample(m.timestamp, m.value)); }
    case ReadDone =>
      AckIsExpected(s);
      AckKeepsStore(s.sent, s.acked, s.agent.store);
    case WriteDone | WriteFailed | CallbackWrite | ServerLoop =>
  }

  lemma {:induction false} PromisesAreKept(s: Sys, steps: seq<Step>, key: BufferKey, n: nat)
    requires Inv(s) && Legal(s, steps) && Promised(s, key, n)
    ensures Promised(Exec(s, steps), key, n)
    decreases |steps|
  {
    if steps != [] {
      StepKeepsInv(s, steps[0]);
      StepKeepsPromise(s, steps[0], key, n);
      PromisesAreKept(Next(s, steps[0]), steps[1..], key, n);
    }
  }

  /** Every round takes up everything. Once the poll thread has passed its gate, in every run,
      whatever the other threads do: as soon as it has visited all keys, every sample that a
      series held when the round began is in a batch or was overwritten. */
  lemma RoundsTakeUpEverything(s: Sys, steps: seq<Step>, key: BufferKey)
    requires Inv(s) && s.poll.ListKeys? && Legal(s, steps) && key in s.agent.store.series
    ensures
      var t := Exec(s, steps);
      t.poll.Recheck? || t.poll.CallWrite? || t.poll.Gate? ==>
        TakenUp(t.sent, t.agent.store, key, |s.agent.store.series[key].log|)
  {
    PromisesAreKept(s, steps, key, |s.agent.store.series[key].log|);
  }

  // ----- Everything gets published -----

  /** Same series, same logs, same losses. */
  ghost predicate SameLogs(s: Store, t: Store) {
    && t.series.Keys == s.series.Keys
    && forall k :: k in s.series ==> t.series[k].log == s.series[k].log && t.series[k].evicted == s.series[k].evicted
  }

  lemma ProductiveStepsPushNothing(s: Sys, step: Step)
    requires Productive(s, step)
    ensures SameLogs(s.agent.store, Next(s, step).agent.store)
  {
    if step.ReadDone? { AcksPushNothing(s); } else { OnlyAcksTouchTheStore(s, step); }
  }

  lemma AcksPushNothing(s: Sys)
    requires s.toAgent != []
    ensures SameLogs(s.agent.store, ReadNext(s).agent.store)
  {
  }

  lemma {:induction false} Concat(s: Sys, a: seq<Step>, b: seq<Step>)
    requires Legal(s, a) && Legal(Exec(s, a), b)
    ensures Legal(s, a + b) && Exec(s, a + b) == Exec(Exec(s, a), b)
    decreases |a|
  {
    if a == [] {
      assert a + b == b;
    } else {
      Concat(Next(s, a[0]), a[1..], b);
      assert (a + b)[1..] == a[1..] + b;
    }
  }

  lemma OneStep(s: Sys, step: Step, rest: seq<Step>)
    requires Enabled(s, step) && Legal(Next(s, step), rest)
    ensures Legal(s, [step] + rest) && Exec(s, [step] + rest) == Exec(Next(s, step), rest)
  {
    assert ([step] + rest)[1..] == rest;
  }

  /** At its gate, with everything acknowledged and nothing queued. */
  ghost predicate AtRest(s: Sys) {
    s.poll.Gate? && Settled(s)
  }

  /** Without a failed write the protocol can always be brought to rest. */
  lemma {:induction false} ComesToRest(s: Sys) returns (steps: seq<Step>)
    requires Inv(s) && !s.failed
    ensures Legal(s, steps) && AtRest(Exec(s, steps)) && SameLogs(s.agent.store, Exec(s, steps).agent.store)
    ensures Inv(Exec(s, steps)) && !Exec(s, steps).failed
    decreases Rank(s)
  {
    if s.poll.Gate? && s.acked == |s.sent| && s.agent.queue == [] {
      EmptyPendingMeansAllAcked(s);
      assert |Flow(s)| >= |s.published|;
      return [];
    }
    var step := PollThread;
    if s.poll.Gate? { step := SomeStepIsProductive(s); }
    ProductiveStepsLowerRank(s, step);
    StepKeepsInv(s, step);
    ProductiveFrame(s, step);
    ProductiveStepsPushNothing(s, step);
    var rest := ComesToRest(Next(s, step));
    OneStep(s, step, rest);
    steps := [step] + rest;
  }

  /** A round from rest to rest. */
  lemma RoundFromRest(s: Sys) returns (steps: seq<Step>)
    requires Inv(s) && !s.failed && AtRest(s)
    ensures Legal(s, steps) && AtRest(Exec(s, steps)) && SameLogs(s.agent.store, Exec(s, steps).agent.store)
    ensures forall k :: k in s.agent.store.series ==>
      TakenUp(Exec(s, steps).sent, Exec(s, steps).agent.store, k, |s.agent.store.series[k].log|)
  {
    var u := PollNext(s);
    StepKeepsInv(s, PollThread);
    var rest := ComesToRest(u);
    OneStep(s, PollThread, rest);
    steps := [PollThread] + rest;
    forall k | k in s.agent.store.series
      ensures TakenUp(Exec(u, rest).sent, Exec(u, rest).agent.store, k, |s.agent.store.series[k].log|)
    {
      RoundsTakeUpEverything(u, rest, k);
    }
  }

  /** Everything in the logs of `s` that was not overwritten is in a published batch of `t`. */
  ghost predicate AllPublished(s: Store, t: Sys) {
    && |t.published| <= |t.sent|
    && forall k, i: nat :: k in s.series && i < |s.series[k].log| && i !in s.series[k].evicted ==>
         Covered(t.sent[..|t.published|], k, i)
  }

  lemma TakenUpAndSettled(s: Store, t: Sys)
    requires Settled(t) && SameLogs(s, t.agent.store)
    requires forall k :: k in s.series ==> TakenUp(t.sent, t.agent.store, k, |s.series[k].log|)
    ensures AllPublished(s, t)
  {
    assert t.sent[..|t.published|] == t.sent;
  }

  /** What is collected can be published: from every reachable state without a failed write, some
      schedule (which pushes nothing) leads to a state in which every index of every series' log
      is carried by a published batch, except those a full push had already dropped. */
  lemma EverySampleCanBePublished(s: Sys) returns (steps: seq<Step>)
    requires Reachable(s) && !s.failed
    ensures Legal(s, steps) && SameLogs(s.agent.store, Exec(s, steps).agent.store)
    ensures AllPublished(s.agent.store, Exec(s, steps))
  {
    ReachableInv(s);
    var first := ComesToRest(s);
    var u := Exec(s, first);
    var second := RoundFromRest(u);
    Concat(s, first, second);
    steps := first + second;
    TakenUpAndSettled(s.agent.store, Exec(u, second));
  }
}
