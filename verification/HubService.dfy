/**
 The fan-out delivers: every client has a pump, what a channel kept can always be pumped out,
 a subscriber that is still on its way to the run loop can get there, and shutdown closes
 every client. Also, at most sixteen pumps ever end.
 */
module HubService {
  import opened Telemetry
  import opened EventBuses
  import opened HubProtocol

  // ----- What every step keeps -----

  /** Every subscriber is on its way to the run loop or has a pump; every client has one. */
  ghost predicate Placed(arriving: set<nat>, register: seq<nat>, clients: set<nat>, pumps: map<nat, Pump>, n: nat) {
    && (forall i: nat :: i < n ==> i in arriving || i in register || i in pumps)
    && (forall i :: i in clients ==> i in pumps)
    && forall i :: i in pumps ==> i < n
  }

  /** A pump stops only at the end of its channel. */
  ghost predicate StoppedAtTheEnd(all: seq<Sub>, pumps: map<nat, Pump>) {
    forall i :: i in pumps && !pumps[i].Pumping? ==> i < |all| && all[i].chan.closed && all[i].chan.queue == []
  }

  /** The remove queue holds exactly the pumps that are gone. */
  ghost predicate RemoveOk(remove: seq<nat>, pumps: map<nat, Pump>) {
    && Distinct(remove) && |remove| <= 16
    && forall i :: i in remove <==> i in pumps && pumps[i].Gone?
  }

  ghost predicate Service(h: Hub) {
    && Placed(h.arriving, h.register, h.clients, h.pumps, |h.all|)
    && StoppedAtTheEnd(h.all, h.pumps)
    && RemoveOk(h.remove, h.pumps)
  }

  lemma RegisterKeepsService(h: Hub)
    requires Inv(h) && Service(h) && Enabled(h, RunRegister)
    ensures Service(Next(h, RunRegister))
  {
    var c := h.register[0];
    assert c in h.register;
    assert h.register == [c] + h.register[1..];
  }

  lemma RegisterSendKeepsService(h: Hub, id: nat)
    requires Service(h) && Enabled(h, RegisterSend(id))
    ensures Service(Next(h, RegisterSend(id)))
  {
    var t := Next(h, RegisterSend(id));
    forall i: nat | i < |t.all| ensures i in t.arriving || i in t.register || i in t.pumps {
      if i in h.register { assert i in h.register + [id]; }
    }
  }

  lemma DrainKeepsService(h: Hub, id: nat)
    requires Service(h) && Enabled(h, DrainOne(id)) && id < |h.all| && !h.all[id].chan.closed
    ensures Service(Next(h, DrainOne(id)))
  {
    var t := Next(h, DrainOne(id));
    assert t.all == h.all[id := h.all[id].(chan := h.all[id].chan.(closed := true))];
    assert t.pumps == h.pumps && t.remove == h.remove && t.clients == h.clients - {id};
    assert t.arriving == h.arriving && t.register == h.register;
  }

  /** Channels whose pump has stopped are closed, and nothing is put into a closed channel. */
  lemma SendKeepsService(h: Hub, agent: string)
    requires Service(h) && agent in h.publishing && h.publishing[agent].rest != []
    ensures Service(Send(h, agent))
  {
    SendFrame(h, agent);
    var t := Send(h, agent);
    forall i | i in t.pumps && !t.pumps[i].Pumping? ensures i < |t.all| && t.all[i].chan.closed && t.all[i].chan.queue == [] {
      assert h.all[i].chan.closed;
    }
  }

  lemma PumpLeaveKeepsService(h: Hub, id: nat)
    requires Service(h) && Enabled(h, PumpLeave(id))
    ensures Service(Next(h, PumpLeave(id)))
  {
    assert id !in h.remove;
    var t := Next(h, PumpLeave(id));
    forall i ensures i in t.remove <==> i in t.pumps && t.pumps[i].Gone? {
      assert i in t.remove <==> i in h.remove || i == id;
    }
  }

  lemma StepKeepsService(h: Hub, step: Step)
    requires Inv(h) && Service(h) && Enabled(h, step)
    ensures Service(Next(h, step))
  {
    match step
    case RegisterSend(id) => RegisterSendKeepsService(h, id);
    case RunRegister => RegisterKeepsService(h);
    case RunRemove => RemoveIsEmptyWhileLive(h); assert false;
    case DrainOne(id) => DrainKeepsService(h, id);
    case SendNext(agent) => SendKeepsService(h, agent);
    case PumpLeave(id) => PumpLeaveKeepsService(h, id);
    case _ => OtherStepsKeepService(h, step);
  }

  lemma OtherStepsKeepService(h: Hub, step: Step)
    requires Service(h) && Enabled(h, step)
    requires step.Upgrade? || step.RunShutdown? || step.DrainEnd? || step.CloseHub? || step.StartPublish?
      || step.EndPublish? || step.PumpTake? || step.PumpEnd?
    ensures Service(Next(h, step))
  {
  }

  lemma {:induction false} RunsKeepService(h: Hub, steps: seq<Step>)
    requires Inv(h) && Service(h) && Legal(h, steps)
    ensures Inv(Exec(h, steps)) && Service(Exec(h, steps))
    decreases |steps|
  {
    if steps != [] {
      StepKeepsInv(h, steps[0]);
      StepKeepsService(h, steps[0]);
      RunsKeepService(Next(h, steps[0]), steps[1..]);
    }
  }

  lemma InitService()
    ensures Inv(INIT) && Service(INIT)
  {
  }

  /** In every run: every subscriber is being handed over or has a pump, every client's pump is
      running, and a pump stops only when its channel is closed and everything kept was taken. */
  lemma {:induction false} EveryClientHasAPump(steps: seq<Step>)
    requires Legal(INIT, steps)
    ensures
      var h := Exec(INIT, steps);
      && (forall i: nat :: i < |h.all| ==> i in h.arriving || i in h.register || i in h.pumps)
      && (forall i :: i in h.clients ==> PumpAt(h, i, Pumping))
      && forall i :: i in h.pumps ==>
           i < |h.all| && (!h.pumps[i].Pumping? ==> h.all[i].chan.closed && h.all[i].chan.taken == |h.all[i].chan.kept|)
  {
    InitService();
    RunsKeepService(INIT, steps);
    var h := Exec(INIT, steps);
    forall i | i in h.pumps
      ensures i < |h.all| && (!h.pumps[i].Pumping? ==> h.all[i].chan.closed && h.all[i].chan.taken == |h.all[i].chan.kept|)
    {
      assert SubOk(h.all[i], i, h.published, h.publishing);
    }
    assert forall i :: i in h.clients ==> i < |h.all| && !h.all[i].chan.closed;
  }

  // ----- Pumping out -----

  /** The same hub after `n` receives from one channel. */
  function Taken(h: Hub, id: nat, n: nat): Hub
    requires id < |h.all| && n <= |h.all[id].chan.queue|
  {
    var c := h.all[id].chan;
    h.(all := h.all[id := h.all[id].(chan := c.(queue := c.queue[n..], taken := c.taken + n))])
  }

  /** The same hub, with one channel pumped out: nothing is left in it. */
  ghost predicate PumpedOut(h: Hub, id: nat, t: Hub)
    requires id < |h.all|
  {
    t == Taken(h, id, |h.all[id].chan.queue|)
  }

  function Takes(id: nat, n: nat): seq<Step> {
    seq(n, _ => PumpTake(id))
  }

  lemma TakeOne(h: Hub, id: nat)
    requires h.panic.Calm? && PumpAt(h, id, Pumping) && id < |h.all| && h.all[id].chan.queue != []
    ensures Enabled(h, PumpTake(id)) && Next(h, PumpTake(id)) == Taken(h, id, 1)
  {
  }

  lemma TakeAnother(h: Hub, id: nat, n: nat)
    requires id < |h.all| && n < |h.all[id].chan.queue|
    ensures Taken(Taken(h, id, 1), id, n) == Taken(h, id, n + 1)
  {
    var c := h.all[id].chan;
    assert c.queue[1..][n..] == c.queue[n + 1..];
    assert Taken(Taken(h, id, 1), id, n).all == Taken(h, id, n + 1).all;
  }

  /** A running pump empties its channel all by itself: as many receives as are queued. */
  lemma {:induction false} PumpTakes(h: Hub, id: nat, n: nat)
    requires h.panic.Calm? && PumpAt(h, id, Pumping) && id < |h.all| && n <= |h.all[id].chan.queue|
    ensures Legal(h, Takes(id, n)) && Exec(h, Takes(id, n)) == Taken(h, id, n)
    decreases n
  {
    if n > 0 {
      TakeOne(h, id);
      PumpTakes(Taken(h, id, 1), id, n - 1);
      TakeAnother(h, id, n - 1);
      assert Takes(id, n)[1..] == Takes(id, n - 1);
    } else {
      assert Taken(h, id, 0).all == h.all;
    }
  }

  lemma QueueIsUntaken(h: Hub, id: nat)
    requires SubsOk(h.all, h.published, h.publishing) && id < |h.all|
    ensures h.all[id].chan.Valid() && h.all[id].chan.taken + |h.all[id].chan.queue| == |h.all[id].chan.kept|
  {
    assert SubOk(h.all[id], id, h.published, h.publishing);
  }

  /** What the client has then received is everything its channel kept, in order. */
  lemma PumpedOutIsConsumed(h: Hub, id: nat, t: Hub)
    requires id < |h.all| && PumpedOut(h, id, t) && SubsOk(t.all, t.published, t.publishing) && h.all[id].chan.Valid()
    ensures t.all[id].chan.Valid() && t.all[id].chan.queue == [] && t.all[id].chan.Consumed() == Pick(h.all[id].chan.offered, h.all[id].chan.kept)
  {
    assert SubOk(t.all[id], id, t.published, t.publishing);
    assert h.all[id].chan.kept[..|h.all[id].chan.kept|] == h.all[id].chan.kept;
  }

  // ----- On the way to the run loop -----

  /** What handing over leaves alone. */
  ghost predicate OnlyHandedOver(h: Hub, t: Hub) {
    && t.all == h.all && t.phase == h.phase && t.panic == h.panic && t.publishing == h.publishing
    && t.subs == h.subs && t.published == h.published && t.remove == h.remove
    && forall i :: i in h.pumps ==> i in t.pumps
  }

  /** The live run loop takes in everybody who waits at its door. */
  lemma {:induction false} LoopTakesAllIn(h: Hub) returns (steps: seq<Step>)
    requires Inv(h) && h.panic.Calm? && h.phase.Live?
    ensures Legal(h, steps) && forall i :: 0 <= i < |steps| ==> steps[i] == RunRegister
    ensures
      var t := Exec(h, steps);
      && Inv(t) && OnlyHandedOver(h, t) && t.register == [] && t.arriving == h.arriving
      && forall i :: i in h.register ==> i in t.pumps
    decreases |h.register|
  {
    if h.register == [] {
      steps := [];
    } else {
      var u := Next(h, RunRegister);
      StepKeepsInv(h, RunRegister);
      var rest := LoopTakesAllIn(u);
      steps := [RunRegister] + rest;
      assert steps[1..] == rest;
      assert h.register == [h.register[0]] + u.register;
    }
  }

  /** A handler that got past its upgrade can hand its client over, and the loop takes it in. */
  lemma ArrivalGetsItsPump(h: Hub, id: nat) returns (steps: seq<Step>)
    requires Inv(h) && h.panic.Calm? && h.phase.Live? && h.register == [] && id in h.arriving
    ensures Legal(h, steps) && forall i :: 0 <= i < |steps| ==> steps[i].RunRegister? || steps[i].RegisterSend?
    ensures OnlyHandedOver(h, Exec(h, steps)) && id in Exec(h, steps).pumps
  {
    var v := Next(h, RegisterSend(id));
    StepKeepsInv(h, RegisterSend(id));
    var last := LoopTakesAllIn(v);
    OneStep(h, RegisterSend(id), last);
    steps := [RegisterSend(id)] + last;
    assert id in v.register;
  }

  /** As long as the loop is live, every subscriber, wherever it is, can be given its pump. */
  lemma SubscriberGetsItsPump(h: Hub, id: nat) returns (steps: seq<Step>)
    requires Inv(h) && Service(h) && h.panic.Calm? && h.phase.Live? && id < |h.all|
    ensures Legal(h, steps) && forall i :: 0 <= i < |steps| ==> steps[i].RunRegister? || steps[i].RegisterSend?
    ensures OnlyHandedOver(h, Exec(h, steps)) && PumpAt(Exec(h, steps), id, Pumping)
  {
    steps := LoopTakesAllIn(h);
    var u := Exec(h, steps);
    if id in u.arriving {
      var last := ArrivalGetsItsPump(u, id);
      Concat(h, steps, last);
      steps := steps + last;
    }
    RunsKeepService(h, steps);
    OpenMeansPumping(Exec(h, steps), id);
  }

  lemma OpenMeansPumping(h: Hub, id: nat)
    requires Inv(h) && Service(h) && h.phase.Live? && id in h.pumps
    ensures PumpAt(h, id, Pumping)
  {
  }

  lemma {:induction false} Concat(h: Hub, a: seq<Step>, b: seq<Step>)
    requires Legal(h, a) && Legal(Exec(h, a), b)
    ensures Legal(h, a + b) && Exec(h, a + b) == Exec(Exec(h, a), b)
    decreases |a|
  {
    if a == [] {
      assert a + b == b;
    } else {
      Concat(Next(h, a[0]), a[1..], b);
      assert (a + b)[1..] == a[1..] + b;
    }
  }

  /** Nobody is starved by the hub itself: from every calm state of a run with a live loop, some
      continuation hands any subscriber everything its channel has kept. */
  lemma {:induction false} EverySubscriberCanBeServed(before: seq<Step>, id: nat) returns (steps: seq<Step>)
    requires Legal(INIT, before)
    requires var h := Exec(INIT, before); h.panic.Calm? && h.phase.Live? && id < |h.all|
    ensures
      var h := Exec(INIT, before);
      && Legal(h, steps) && id < |Exec(h, steps).all|
      && var c, d := h.all[id].chan, Exec(h, steps).all[id].chan;
         c.Valid() && d.Valid() && d.queue == [] && d.Consumed() == Pick(c.offered, c.kept)
  {
    var h := Exec(INIT, before);
    InitService();
    RunsKeepService(INIT, before);
    var first := SubscriberGetsItsPump(h, id);
    var u := Exec(h, first);
    RunsKeepInv(h, first);
    var takes := PumpOut(u, id);
    RunsKeepInv(u, takes);
    QueueIsUntaken(h, id);
    PumpedOutIsConsumed(u, id, Exec(u, takes));
    Concat(h, first, takes);
    steps := first + takes;
  }

  lemma PumpOut(h: Hub, id: nat) returns (steps: seq<Step>)
    requires h.panic.Calm? && PumpAt(h, id, Pumping) && id < |h.all|
    ensures Legal(h, steps) && forall i :: 0 <= i < |steps| ==> steps[i] == PumpTake(id)
    ensures PumpedOut(h, id, Exec(h, steps))
  {
    PumpTakes(h, id, |h.all[id].chan.queue|);
    steps := Takes(id, |h.all[id].chan.queue|);
  }

  /** The pump of a closed channel can finish: it takes the rest, stops, and leaves if the
      remove queue has room. */
  lemma ClosedChannelsPumpLeaves(h: Hub, id: nat) returns (steps: seq<Step>)
    requires h.panic.Calm? && PumpAt(h, id, Pumping) && id < |h.all| && h.all[id].chan.closed && |h.remove| < 16
    ensures Legal(h, steps) && PumpAt(Exec(h, steps), id, Gone) && Exec(h, steps).remove == h.remove + [id]
    ensures id < |Exec(h, steps).all| && Exec(h, steps).all[id].chan.queue == []
  {
    var takes := PumpOut(h, id);
    var u := Exec(h, takes);
    var v := Next(u, PumpEnd(id));
    OneStep(v, PumpLeave(id), []);
    OneStep(u, PumpEnd(id), [PumpLeave(id)] + []);
    Concat(h, takes, [PumpEnd(id)] + ([PumpLeave(id)] + []));
    steps := takes + ([PumpEnd(id)] + ([PumpLeave(id)] + []));
  }

  // ----- Shutdown -----

  lemma {:induction false} LoopDrains(h: Hub) returns (steps: seq<Step>)
    requires Inv(h) && h.panic.Calm? && h.phase.Draining?
    ensures Legal(h, steps)
    ensures
      var t := Exec(h, steps);
      && Inv(t) && t.panic.Calm? && t.phase.Draining? && t.clients == {} && |t.all| == |h.all|
      && forall i :: 0 <= i < |h.all| && (i in h.clients || h.all[i].chan.closed) ==> t.all[i].chan.closed
    decreases |h.clients|
  {
    if h.clients == {} {
      steps := [];
    } else {
      var id :| id in h.clients;
      DrainKeepsInv(h, id);
      DrainedOne(h, id);
      var u := Next(h, DrainOne(id));
      var rest := LoopDrains(u);
      OneStep(h, DrainOne(id), rest);
      steps := [DrainOne(id)] + rest;
    }
  }

  lemma DrainedOne(h: Hub, id: nat)
    requires Enabled(h, DrainOne(id)) && id < |h.all|
    ensures
      var t := Next(h, DrainOne(id));
      && t.clients == h.clients - {id} && t.phase == h.phase && |t.all| == |h.all|
      && forall i :: 0 <= i < |h.all| && (i == id || h.all[i].chan.closed) ==> t.all[i].chan.closed
  {
  }

  /** Shutdown goes through: once the hub is closed, the live loop can stop, with every client's
      channel closed and no client left. */
  lemma ShutdownClosesEveryClient(h: Hub) returns (steps: seq<Step>)
    requires Inv(h) && h.panic.Calm? && h.phase.Live? && h.closing
    ensures Legal(h, steps)
    ensures
      var t := Exec(h, steps);
      && t.panic.Calm? && t.phase.Stopped? && t.clients == {} && |t.all| == |h.all|
      && forall i :: i in h.clients ==> i < |t.all| && t.all[i].chan.closed
  {
    var u := Next(h, RunShutdown);
    StepKeepsInv(h, RunShutdown);
    var drain := LoopDrains(u);
    var v := Exec(u, drain);
    OneStep(v, DrainEnd, []);
    Concat(u, drain, [DrainEnd] + []);
    OneStep(h, RunShutdown, drain + ([DrainEnd] + []));
    steps := [RunShutdown] + (drain + ([DrainEnd] + []));
  }

  /** The remove queue is never read, so at most sixteen pumps ever end; any other blocks on its
      last send for good. */
  lemma {:induction false} AtMostSixteenPumpsEnd(steps: seq<Step>)
    requires Legal(INIT, steps)
    ensures
      var h := Exec(INIT, steps);
      && Distinct(h.remove) && |h.remove| <= 16
      && (forall i :: i in h.pumps && h.pumps[i].Gone? <==> i in h.remove)
      && (|h.remove| == 16 ==> forall id :: !Enabled(h, PumpLeave(id)))
  {
    InitService();
    RunsKeepService(INIT, steps);
  }

  lemma {:induction false} RemoveNeverShrinks(h: Hub, steps: seq<Step>)
    requires Inv(h) && Legal(h, steps)
    ensures h.remove <= Exec(h, steps).remove
    decreases |steps|
  {
    if steps != [] {
      StepKeepsInv(h, steps[0]);
      RemoveGrows(h, steps[0]);
      RemoveNeverShrinks(Next(h, steps[0]), steps[1..]);
    }
  }

  lemma RemoveGrows(h: Hub, step: Step)
    requires Inv(h) && Enabled(h, step)
    ensures h.remove <= Next(h, step).remove
  {
    match step
    case RunRemove => RemoveIsEmptyWhileLive(h); assert false;
    case SendNext(agent) => SendFrame(h, agent);
    case _ =>
  }
}
