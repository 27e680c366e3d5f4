/**
 The joint system delivers: whatever the channel of a listening socket has kept can be brought
 to the dashboard, completely and in order, without any step of the agent.
 */
module Delivery {
  import opened Telemetry
  import EventBuses
  import Hub = HubProtocol
  import HubService
  import Browser = Reconnect
  import opened Pipeline

  lemma {:induction false} Concat(w: World, a: seq<Step>, b: seq<Step>)
    requires Legal(w, a) && Legal(Exec(w, a), b)
    ensures Legal(w, a + b) && Exec(w, a + b) == Exec(Exec(w, a), b)
    decreases |a|
  {
    if a == [] {
      assert a + b == b;
    } else {
      Concat(Next(w, a[0]), a[1..], b);
      assert (a + b)[1..] == a[1..] + b;
    }
  }

  lemma OneStep(w: World, step: Step, rest: seq<Step>)
    requires Enabled(w, step) && Legal(Next(w, step), rest)
    ensures Legal(w, [step] + rest) && Exec(w, [step] + rest) == Exec(Next(w, step), rest)
  {
    assert ([step] + rest)[1..] == rest;
  }

  function Lifted(steps: seq<Hub.Step>): seq<Step> {
    if steps == [] then [] else [HubStep(steps[0])] + Lifted(steps[1..])
  }

  /** A schedule of the hub that publishes nothing is one of the joint system. */
  lemma {:induction false} LiftHub(w: World, steps: seq<Hub.Step>)
    requires Hub.Legal(w.hub, steps) && forall i :: 0 <= i < |steps| ==> !steps[i].StartPublish?
    ensures Legal(w, Lifted(steps)) && Exec(w, Lifted(steps)) == w.(hub := Hub.Exec(w.hub, steps))
    decreases |steps|
  {
    if steps != [] {
      LiftHub(Next(w, HubStep(steps[0])), steps[1..]);
      OneStep(w, HubStep(steps[0]), Lifted(steps[1..]));
    }
  }

  function Messages(socket: nat, n: nat): seq<Step> {
    seq(n, _ => MessageEvent(socket))
  }

  /** Frames number `from` to `to` of a channel. */
  ghost function FramesOf(c: EventBuses.Chan, from: nat, to: nat): seq<Batch>
    requires from <= to
  {
    seq(to - from, i requires i >= 0 => Frame(c, from + i))
  }

  /** And where they are among the published batches. */
  ghost function Positions(sub: Hub.Sub, from: nat, to: nat): seq<nat>
    requires from <= to
  {
    seq<nat>(to - from, i requires i >= 0 => Position(sub, from + i))
  }

  lemma SameFrames(c: EventBuses.Chan, d: EventBuses.Chan, from: nat, to: nat)
    requires d.kept == c.kept && d.offered == c.offered
    ensures from <= to ==> FramesOf(d, from, to) == FramesOf(c, from, to)
  {
    forall n: nat ensures Frame(d, n) == Frame(c, n) { }
  }

  /** Everything that was written to a listening socket and has not arrived can arrive. */
  lemma {:induction false} WrittenFramesArrive(w: World, socket: nat, n: nat)
    requires socket in w.links && Listening(w.effect, socket) && w.links[socket].sub < |w.hub.all|
    requires w.links[socket].arrived + n == w.hub.all[w.links[socket].sub].chan.taken
    ensures Legal(w, Messages(socket, n))
    ensures
      var t := Exec(w, Messages(socket, n));
      var link, c := w.links[socket], w.hub.all[w.links[socket].sub].chan;
      && t.received == w.received + FramesOf(c, link.arrived, c.taken)
      && t.links == w.links[socket := link.(arrived := c.taken)]
      && t.stream == w.stream && t.at == w.at + Positions(w.hub.all[link.sub], link.arrived, c.taken)
    decreases n
  {
    var link, c := w.links[socket], w.hub.all[w.links[socket].sub].chan;
    if n > 0 {
      var t := Next(w, MessageEvent(socket));
      WrittenFramesArrive(t, socket, n - 1);
      OneStep(w, MessageEvent(socket), Messages(socket, n - 1));
      assert Messages(socket, n) == [MessageEvent(socket)] + Messages(socket, n - 1);
      var sub := w.hub.all[link.sub];
      assert Positions(sub, link.arrived, c.taken) == [Position(sub, link.arrived)] + Positions(sub, link.arrived + 1, c.taken);
      assert FramesOf(c, link.arrived, c.taken) == [Frame(c, link.arrived)] + FramesOf(c, link.arrived + 1, c.taken);
    } else {
      assert w.links[socket := link.(arrived := c.taken)] == w.links;
    }
  }

  /** What the channel of a linked socket has kept beyond what arrived. */
  ghost function Outstanding(w: World, socket: nat): seq<Batch>
    requires socket in w.links && w.links[socket].sub < |w.hub.all|
  {
    var c, arrived := w.hub.all[w.links[socket].sub].chan, w.links[socket].arrived;
    if arrived <= |c.kept| then FramesOf(c, arrived, |c.kept|) else []
  }

  /** Once the pump has emptied the channel, all of it can arrive. */
  lemma PumpedFramesArrive(w: World, socket: nat) returns (steps: seq<Step>)
    requires socket in w.links && Listening(w.effect, socket) && w.links[socket].sub < |w.hub.all|
    requires
      var c := w.hub.all[w.links[socket].sub].chan;
      w.links[socket].arrived <= c.taken == |c.kept|
    ensures Legal(w, steps) && Exec(w, steps).received == w.received + Outstanding(w, socket)
  {
    var link, c := w.links[socket], w.hub.all[w.links[socket].sub].chan;
    WrittenFramesArrive(w, socket, c.taken - link.arrived);
    steps := Messages(socket, c.taken - link.arrived);
  }

  /** In every joint state of a run whose hub is calm: everything the channel of a listening
      socket has kept can be delivered, in order, if the socket's subscriber has its pump, or the
      run loop is live to start it. */
  lemma KeptFramesCanBeDelivered(cap: nat, agent: string, before: seq<Step>, socket: nat) returns (steps: seq<Step>)
    requires Legal(Init(cap, agent), before)
    requires
      var w := Exec(Init(cap, agent), before);
      && w.hub.panic.Calm? && socket in w.links && Listening(w.effect, socket) && w.links[socket].sub < |w.hub.all|
      && (w.hub.phase.Live? || w.links[socket].sub in w.hub.pumps)
    ensures
      var w := Exec(Init(cap, agent), before);
      Legal(w, steps) && Exec(w, steps).received == w.received + Outstanding(w, socket)
  {
    var w := Exec(Init(cap, agent), before);
    RunsKeepInv(Init(cap, agent), before);
    HubRuns(Init(cap, agent), before);
    HubService.InitService();
    HubService.RunsKeepService(Hub.INIT, HubSteps(Init(cap, agent), before));
    steps := DeliverFrom(w, socket);
  }

  lemma DeliverFrom(w: World, socket: nat) returns (steps: seq<Step>)
    requires Inv(w) && HubService.Service(w.hub) && w.hub.panic.Calm?
    requires socket in w.links && Listening(w.effect, socket) && w.links[socket].sub < |w.hub.all|
    requires w.hub.phase.Live? || w.links[socket].sub in w.hub.pumps
    ensures Legal(w, steps) && Exec(w, steps).received == w.received + Outstanding(w, socket)
  {
    assert LinkOk(w.links[socket], w.hub.all, w.agent);
    var moves := PumpOutSchedule(w.hub, w.links[socket].sub);
    steps := DeliverAfter(w, socket, moves);
  }

  lemma DeliverAfter(w: World, socket: nat, moves: seq<Hub.Step>) returns (steps: seq<Step>)
    requires socket in w.links && Listening(w.effect, socket) && w.links[socket].sub < |w.hub.all|
    requires Hub.Legal(w.hub, moves) && forall i :: 0 <= i < |moves| ==> !moves[i].StartPublish?
    requires PumpedChannel(w.hub, Hub.Exec(w.hub, moves), w.links[socket].sub)
    requires w.links[socket].arrived <= w.hub.all[w.links[socket].sub].chan.taken
    ensures Legal(w, steps) && Exec(w, steps).received == w.received + Outstanding(w, socket)
  {
    LiftHub(w, moves);
    var t := w.(hub := Hub.Exec(w.hub, moves));
    var arrivals := PumpedFramesArrive(t, socket);
    Concat(w, Lifted(moves), arrivals);
    var c := w.hub.all[w.links[socket].sub].chan;
    SameFrames(c, t.hub.all[w.links[socket].sub].chan, w.links[socket].arrived, |c.kept|);
    steps := Lifted(moves) + arrivals;
  }

  /** The channel has kept the same as before, and all of it was taken. */
  ghost predicate PumpedChannel(h: Hub.Hub, t: Hub.Hub, id: nat)
    requires id < |h.all|
  {
    && |t.all| == |h.all|
    && var c, d := h.all[id].chan, t.all[id].chan;
       d.kept == c.kept && d.offered == c.offered && c.taken <= d.taken == |d.kept|
  }

  /** Some schedule without publishing leaves nothing of the channel untaken. */
  lemma PumpOutSchedule(h: Hub.Hub, id: nat) returns (steps: seq<Hub.Step>)
    requires Hub.Inv(h) && HubService.Service(h) && h.panic.Calm? && id < |h.all|
    requires h.phase.Live? || id in h.pumps
    ensures Hub.Legal(h, steps) && forall i :: 0 <= i < |steps| ==> !steps[i].StartPublish?
    ensures PumpedChannel(h, Hub.Exec(h, steps), id)
  {
    HubService.QueueIsUntaken(h, id);
    if id in h.pumps && !h.pumps[id].Pumping? {
      steps := [];
    } else if id in h.pumps {
      steps := HubService.PumpOut(h, id);
    } else {
      steps := HandOverAndPump(h, id);
    }
  }

  lemma HandOverAndPump(h: Hub.Hub, id: nat) returns (steps: seq<Hub.Step>)
    requires Hub.Inv(h) && HubService.Service(h) && h.panic.Calm? && h.phase.Live? && id < |h.all|
    requires h.all[id].chan.taken + |h.all[id].chan.queue| == |h.all[id].chan.kept|
    ensures Hub.Legal(h, steps) && forall i :: 0 <= i < |steps| ==> !steps[i].StartPublish?
    ensures PumpedChannel(h, Hub.Exec(h, steps), id)
  {
    var first := HubService.SubscriberGetsItsPump(h, id);
    var u := Hub.Exec(h, first);
    var last := HubService.PumpOut(u, id);
    HubService.Concat(h, first, last);
    PumpedAfterHandOver(h, u, Hub.Exec(u, last), id);
    steps := first + last;
  }

  lemma PumpedAfterHandOver(h: Hub.Hub, u: Hub.Hub, t: Hub.Hub, id: nat)
    requires id < |h.all| && HubService.OnlyHandedOver(h, u) && HubService.PumpedOut(u, id, t)
    requires h.all[id].chan.taken + |h.all[id].chan.queue| == |h.all[id].chan.kept|
    ensures PumpedChannel(h, t, id)
  {
  }
}
