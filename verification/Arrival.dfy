/**
 The point of the whole system: while the hub is live, what the agent has collected and the
 ring has not overwritten can be brought to the dashboard, over a socket that listens.
 */
module Arrival {
  import opened Telemetry
  import EventBuses
  import SeriesBuffers
  import MetricsBuffers
  import Stream = StreamProtocol
  import StreamInvariant
  import StreamService
  import Hub = HubProtocol
  import HubService
  import Browser = Reconnect
  import opened Pipeline
  import opened Delivery

  // ----- The hub at work -----

  ghost predicate AtWork(h: Hub.Hub) {
    Hub.Inv(h) && HubService.Service(h) && h.panic.Calm? && h.phase.Live?
  }

  /** The rest of a Publish call: one send per subscriber, then its return. */
  function Sends(agent: string, n: nat): seq<Hub.Step> {
    seq(n, _ => Hub.SendNext(agent)) + [Hub.EndPublish(agent)]
  }

  /** What the sends still to come do to a channel. */
  ghost predicate Offered(h: Hub.Hub, t: Hub.Hub, rest: seq<nat>, b: Batch) {
    && |t.all| == |h.all| && t.pumps == h.pumps && t.published == h.published && t.phase == h.phase && t.panic == h.panic
    && forall i :: 0 <= i < |h.all| ==>
         t.all[i] == if i in rest then h.all[i].(chan := h.all[i].chan.Offer(b)) else h.all[i]
  }

  lemma OneSend(h: Hub.Hub, agent: string)
    requires Hub.Inv(h) && h.panic.Calm? && h.phase.Live? && agent in h.publishing && h.publishing[agent].rest != []
    ensures
      var t, p := Hub.Next(h, Hub.SendNext(agent)), h.publishing[agent];
      && Offered(h, t, [p.rest[0]], p.batch)
      && agent in t.publishing && t.publishing[agent] == p.(rest := p.rest[1..])
      && Distinct(p.rest) && p.rest[0] !in p.rest[1..]
  {
    Hub.SendKeepsPublishers(h, agent);
    Hub.SendFrame(h, agent);
    var p := h.publishing[agent];
    assert p.rest == [p.rest[0]] + p.rest[1..];
  }

  lemma OfferedTwice(h: Hub.Hub, u: Hub.Hub, t: Hub.Hub, x: nat, rest: seq<nat>, b: Batch)
    requires Offered(h, u, [x], b) && Offered(u, t, rest, b) && x !in rest
    ensures Offered(h, t, [x] + rest, b)
  {
  }

  /** The Publish call of an agent runs to its end: every subscriber on its list is offered the
      batch once, nobody else anything. */
  ghost predicate Returns(h: Hub.Hub, agent: string, p: Hub.Publisher) {
    var steps := Sends(agent, |p.rest|);
    && Hub.Legal(h, steps)
    && Offered(h, Hub.Exec(h, steps), p.rest, p.batch) && agent !in Hub.Exec(h, steps).publishing
  }

  lemma LastReturn(h: Hub.Hub, agent: string)
    requires h.panic.Calm? && agent in h.publishing && h.publishing[agent].rest == []
    ensures Returns(h, agent, h.publishing[agent])
  {
    assert Sends(agent, 0) == [Hub.EndPublish(agent)] + [];
    Hub.OneStep(h, Hub.EndPublish(agent), []);
  }

  lemma SendThenReturn(h: Hub.Hub, agent: string, p: Hub.Publisher)
    requires Hub.Enabled(h, Hub.SendNext(agent)) && p.rest != [] && p.rest[0] !in p.rest[1..]
    requires Offered(h, Hub.Next(h, Hub.SendNext(agent)), [p.rest[0]], p.batch)
    requires Returns(Hub.Next(h, Hub.SendNext(agent)), agent, p.(rest := p.rest[1..]))
    ensures Returns(h, agent, p)
  {
    var u, rest := Hub.Next(h, Hub.SendNext(agent)), Sends(agent, |p.rest| - 1);
    Hub.OneStep(h, Hub.SendNext(agent), rest);
    assert Sends(agent, |p.rest|) == [Hub.SendNext(agent)] + rest;
    OfferedTwice(h, u, Hub.Exec(u, rest), p.rest[0], p.rest[1..], p.batch);
    assert [p.rest[0]] + p.rest[1..] == p.rest;
  }

  lemma {:induction false} PublishReturns(h: Hub.Hub, agent: string)
    requires Hub.Inv(h) && h.panic.Calm? && h.phase.Live? && agent in h.publishing
    ensures Returns(h, agent, h.publishing[agent])
    decreases |h.publishing[agent].rest|
  {
    if h.publishing[agent].rest == [] {
      LastReturn(h, agent);
    } else {
      OneSend(h, agent);
      Hub.StepKeepsInv(h, Hub.SendNext(agent));
      PublishReturns(Hub.Next(h, Hub.SendNext(agent)), agent);
      SendThenReturn(h, agent, h.publishing[agent]);
    }
  }

  ghost predicate KeptSince(kept: seq<nat>, from: nat, i: nat) {
    exists j :: from <= j < |kept| && kept[j] == i
  }

  /** The channel has kept everything it was offered in between. */
  ghost predicate NothingLost(c: EventBuses.Chan, d: EventBuses.Chan) {
    && c.kept <= d.kept && c.offered <= d.offered
    && forall i: nat :: |c.offered| <= i < |d.offered| ==> KeptSince(d.kept, |c.kept|, i)
  }

  lemma NothingLostTwice(c: EventBuses.Chan, d: EventBuses.Chan, e: EventBuses.Chan)
    requires NothingLost(c, d) && NothingLost(d, e)
    ensures NothingLost(c, e)
  {
    forall i: nat | |c.offered| <= i < |e.offered| ensures KeptSince(e.kept, |c.kept|, i) {
      if i < |d.offered| {
        assert KeptSince(d.kept, |c.kept|, i);
        var j :| |c.kept| <= j < |d.kept| && d.kept[j] == i;
        assert e.kept[j] == i;
      } else {
        assert KeptSince(e.kept, |d.kept|, i);
        var j :| |d.kept| <= j < |e.kept| && e.kept[j] == i;
      }
    }
  }

  lemma EmptyChannelKeepsOffer(c: EventBuses.Chan, b: Batch)
    requires c.queue == []
    ensures NothingLost(c, c.Offer(b)) && NothingLost(c, c)
  {
    var d := c.Offer(b);
    assert d.kept[|c.kept|] == |c.offered|;
  }

  /** Nothing of the agent's is being published, and the channel is empty. */
  ghost predicate Idle(h: Hub.Hub, agent: string, id: nat) {
    && agent !in h.publishing && id < |h.all| && h.all[id].agent == agent
    && h.all[id].chan.queue == [] && h.all[id].chan.taken == |h.all[id].chan.kept|
  }

  /** How one channel, and the record of what was published, come out of a schedule. */
  ghost predicate Forwarded(h: Hub.Hub, t: Hub.Hub, id: nat) {
    && id < |h.all| == |t.all| && t.all[id].agent == h.all[id].agent && t.all[id].since == h.all[id].since
    && NothingLost(h.all[id].chan, t.all[id].chan)
  }

  lemma StaysAtWork(h: Hub.Hub, steps: seq<Hub.Step>)
    requires AtWork(h) && Hub.Legal(h, steps)
    ensures Hub.Inv(Hub.Exec(h, steps)) && HubService.Service(Hub.Exec(h, steps))
  {
    HubService.RunsKeepService(h, steps);
  }

  /** Emptying a channel changes nothing else of it. */
  lemma EmptyChannel(h: Hub.Hub, id: nat) returns (steps: seq<Hub.Step>)
    requires AtWork(h) && id < |h.all|
    ensures Hub.Legal(h, steps) && forall i :: 0 <= i < |steps| ==> !steps[i].StartPublish?
    ensures
      var t := Hub.Exec(h, steps);
      && AtWork(t) && t.publishing == h.publishing && t.published == h.published && |t.all| == |h.all|
      && t.all[id] == h.all[id].(chan := h.all[id].chan.(queue := [], taken := |h.all[id].chan.kept|))
  {
    var first := HubService.SubscriberGetsItsPump(h, id);
    var u := Hub.Exec(h, first);
    var last := HubService.PumpOut(u, id);
    HubService.Concat(h, first, last);
    HubService.QueueIsUntaken(h, id);
    steps := first + last;
    StaysAtWork(h, steps);
  }

  /** Finishing a Publish call, if one is under way: an empty channel loses nothing of it. */
  lemma FinishPublish(h: Hub.Hub, agent: string, id: nat) returns (steps: seq<Hub.Step>)
    requires AtWork(h) && id < |h.all|
    ensures Hub.Legal(h, steps) && forall i :: 0 <= i < |steps| ==> !steps[i].StartPublish?
    ensures
      var t := Hub.Exec(h, steps);
      && AtWork(t) && agent !in t.publishing && t.published == h.published
      && |t.all| == |h.all| && t.all[id].agent == h.all[id].agent && t.all[id].since == h.all[id].since
      && (h.all[id].chan.queue == [] ==> NothingLost(h.all[id].chan, t.all[id].chan))
  {
    steps := [];
    var b := NO_BATCH;
    if agent in h.publishing {
      PublishReturns(h, agent);
      b := h.publishing[agent].batch;
      steps := Sends(agent, |h.publishing[agent].rest|);
    }
    StaysAtWork(h, steps);
    if h.all[id].chan.queue == [] { EmptyChannelKeepsOffer(h.all[id].chan, b); }
  }

  /** And then emptying the channel. */
  lemma Forward(h: Hub.Hub, agent: string, id: nat) returns (steps: seq<Hub.Step>)
    requires AtWork(h) && id < |h.all| && h.all[id].agent == agent
    ensures Hub.Legal(h, steps) && forall i :: 0 <= i < |steps| ==> !steps[i].StartPublish?
    ensures
      var t := Hub.Exec(h, steps);
      AtWork(t) && Idle(t, agent, id) && t.published == h.published && (h.all[id].chan.queue == [] ==> Forwarded(h, t, id))
  {
    var first := FinishPublish(h, agent, id);
    var u := Hub.Exec(h, first);
    var last := EmptyChannel(u, id);
    HubService.Concat(h, first, last);
    steps := first + last;
  }

  // ----- The stream and the hub together -----

  /** The socket's subscriber can take whatever is published next. */
  ghost predicate Ready(w: World, socket: nat) {
    && Inv(w) && AtWork(w.hub) && socket in w.links && Listening(w.effect, socket)
    && Idle(w.hub, w.agent, w.links[socket].sub)
  }

  /** What stays the same while the dashboard only waits. */
  ghost predicate Waits(w: World, t: World, socket: nat)
    requires socket in w.links
  {
    && t == w.(stream := t.stream, hub := t.hub)
    && Forwarded(w.hub, t.hub, w.links[socket].sub)
  }

  lemma WaitsTwice(w: World, u: World, t: World, socket: nat)
    requires socket in w.links && Waits(w, u, socket) && Waits(u, t, socket)
    ensures Waits(w, t, socket)
  {
    var id := w.links[socket].sub;
    NothingLostTwice(w.hub.all[id].chan, u.hub.all[id].chan, t.hub.all[id].chan);
  }

  /** One step of the stream, and the hub's work that it causes. */
  lemma StreamStepsOn(w: World, socket: nat, step: Stream.Step) returns (steps: seq<Step>)
    requires Ready(w, socket) && Stream.Enabled(w.stream, step)
    ensures Legal(w, steps)
    ensures
      var t := Exec(w, steps);
      Ready(t, socket) && Waits(w, t, socket) && t.stream == Stream.Next(w.stream, step)
  {
    var u := Next(w, AgentStep(step));
    StepKeepsInv(w, AgentStep(step));
    HubStaysAtWork(w, step);
    var id := w.links[socket].sub;
    var moves := Forward(u.hub, w.agent, id);
    LiftHub(u, moves);
    var t := u.(hub := Hub.Exec(u.hub, moves));
    OneStep(w, AgentStep(step), Lifted(moves));
    steps := [AgentStep(step)] + Lifted(moves);
    RunsKeepInv(u, Lifted(moves));
  }

  /** Starting a Publish call leaves the subscribers as they are. */
  lemma HubStaysAtWork(w: World, step: Stream.Step)
    requires Inv(w) && AtWork(w.hub) && Enabled(w, AgentStep(step))
    ensures
      var u := Next(w, AgentStep(step));
      AtWork(u.hub) && u.hub.all == w.hub.all && u == w.(stream := Stream.Next(w.stream, step), hub := u.hub)
  {
    if Publishes(w.stream, step) {
      Hub.StepKeepsInv(w.hub, Hub.StartPublish(w.agent, w.stream.server.batch));
      HubService.StepKeepsService(w.hub, Hub.StartPublish(w.agent, w.stream.server.batch));
    }
  }

  lemma {:induction false} StreamRunsOn(w: World, socket: nat, run: seq<Stream.Step>) returns (steps: seq<Step>)
    requires Ready(w, socket) && Stream.Legal(w.stream, run)
    ensures Legal(w, steps)
    ensures
      var t := Exec(w, steps);
      Ready(t, socket) && Waits(w, t, socket) && t.stream == Stream.Exec(w.stream, run)
    decreases |run|
  {
    if run == [] {
      steps := [];
      EmptyChannelKeepsOffer(w.hub.all[w.links[socket].sub].chan, NO_BATCH);
    } else {
      var first := StreamStepsOn(w, socket, run[0]);
      var u := Exec(w, first);
      var rest := StreamRunsOn(u, socket, run[1..]);
      Concat(w, first, rest);
      WaitsTwice(w, u, Exec(u, rest), socket);
      steps := first + rest;
    }
  }

  // ----- Arriving -----

  /** All frames of a channel that was emptied arrive, each at its position. */
  lemma EmptiedFramesArrive(w: World, socket: nat) returns (steps: seq<Step>)
    requires socket in w.links && Listening(w.effect, socket) && w.links[socket].sub < |w.hub.all|
    requires
      var c := w.hub.all[w.links[socket].sub].chan;
      w.links[socket].arrived <= c.taken == |c.kept|
    ensures Legal(w, steps) && Exec(w, steps).stream == w.stream
    ensures
      var sub, arrived := w.hub.all[w.links[socket].sub], w.links[socket].arrived;
      && w.at <= Exec(w, steps).at
      && forall n: nat :: arrived <= n < |sub.chan.kept| ==> Position(sub, n) in Exec(w, steps).at
  {
    var link := w.links[socket];
    var c := w.hub.all[link.sub].chan;
    WrittenFramesArrive(w, socket, c.taken - link.arrived);
    steps := Messages(socket, c.taken - link.arrived);
    var sub, t := w.hub.all[link.sub], Exec(w, steps);
    forall n: nat | link.arrived <= n < |c.kept| ensures Position(sub, n) in t.at {
      assert t.at[|w.at| + n - link.arrived] == Position(sub, n);
    }
  }

  /** An idle hub has offered an open channel everything published since it was subscribed. */
  lemma IdleMeansAllOffered(w: World, id: nat)
    requires Inv(w) && AtWork(w.hub) && Idle(w.hub, w.agent, id)
    ensures
      var sub := w.hub.all[id];
      sub.chan.Valid() && sub.since <= |w.stream.published| && sub.since + |sub.chan.offered| == |w.stream.published|
  {
    assert Hub.SubOk(w.hub.all[id], id, w.hub.published, w.hub.publishing);
    assert !w.hub.all[id].chan.closed;
  }

  /** From a ready state, whatever a run of the stream publishes can be brought to the socket. */
  lemma PublishedNextArrives(w: World, socket: nat, run: seq<Stream.Step>) returns (steps: seq<Step>)
    requires Ready(w, socket) && Stream.Legal(w.stream, run)
    ensures Legal(w, steps)
    ensures
      var t := Exec(w, steps);
      && t.stream == Stream.Exec(w.stream, run)
      && forall p: nat :: |w.stream.published| <= p < |t.stream.published| ==> p in t.at
  {
    var first := StreamRunsOn(w, socket, run);
    var u := Exec(w, first);
    var id := w.links[socket].sub;
    assert LinkOk(u.links[socket], u.hub.all, u.agent);
    var last := EmptiedFramesArrive(u, socket);
    Concat(w, first, last);
    steps := first + last;
    IdleMeansAllOffered(w, id);
    IdleMeansAllOffered(u, id);
    assert LinkOk(w.links[socket], w.hub.all, w.agent);
    PositionsArrive(w.hub.all[id], u.hub.all[id], w.links[socket].arrived, Exec(u, last).at);
  }

  lemma PositionsArrive(s: Hub.Sub, t: Hub.Sub, arrived: nat, at: seq<nat>)
    requires NothingLost(s.chan, t.chan) && t.since == s.since && arrived <= |s.chan.kept|
    requires forall n: nat :: arrived <= n < |t.chan.kept| ==> Position(t, n) in at
    ensures forall p: nat :: s.since + |s.chan.offered| <= p < t.since + |t.chan.offered| ==> p in at
  {
    forall p: nat | s.since + |s.chan.offered| <= p < t.since + |t.chan.offered| ensures p in at {
      assert KeptSince(t.chan.kept, |s.chan.kept|, p - s.since);
      var j :| |s.chan.kept| <= j < |t.chan.kept| && t.chan.kept[j] == p - s.since;
      assert Position(t, j) == p;
    }
  }

  /** A ready state can be reached from any in which the hub is at work. */
  lemma GetReady(w: World, socket: nat) returns (steps: seq<Step>)
    requires Inv(w) && AtWork(w.hub) && socket in w.links && Listening(w.effect, socket)
    ensures Legal(w, steps) && Ready(Exec(w, steps), socket) && Exec(w, steps).stream == w.stream
  {
    assert LinkOk(w.links[socket], w.hub.all, w.agent);
    var moves := Forward(w.hub, w.agent, w.links[socket].sub);
    LiftHub(w, moves);
    steps := Lifted(moves);
    RunsKeepInv(w, steps);
  }

  // ----- Getting connected -----

  /** Until it is disposed of, the effect can always get an open socket: the one it has, or the
      one its timer makes. */
  lemma SocketCanOpen(e: Browser.Effect) returns (events: seq<Browser.Event>, socket: nat)
    requires Browser.Inv(e) && !e.disposed
    ensures Browser.Legal(e, events) && Listening(Browser.Exec(e, events), socket)
  {
    if e.socket.None? {
      events, socket := TimerOpens(e);
    } else {
      socket := e.socket.value;
      match e.sockets[socket]
      case Opened => events := [];
      case Pending =>
        EventThen(e, Browser.OpenEvent(socket), []);
        events := [Browser.OpenEvent(socket)] + [];
      case Closing(_) =>
        var f := Browser.Next(e, Browser.CloseEvent(socket));
        Browser.StepKeepsInv(e, Browser.CloseEvent(socket));
        var first := Browser.CloseEvent(socket);
        events, socket := TimerOpens(f);
        EventThen(e, first, events);
        events := [first] + events;
    }
  }

  lemma TimerOpens(e: Browser.Effect) returns (events: seq<Browser.Event>, socket: nat)
    requires Browser.Inv(e) && !e.disposed && e.socket.None?
    ensures Browser.Legal(e, events) && Listening(Browser.Exec(e, events), socket)
  {
    socket := |e.sockets|;
    var f := Browser.Next(e, Browser.TimerEvent);
    EventThen(f, Browser.OpenEvent(socket), []);
    EventThen(e, Browser.TimerEvent, [Browser.OpenEvent(socket)] + []);
    events := [Browser.TimerEvent] + ([Browser.OpenEvent(socket)] + []);
  }

  lemma EventThen(e: Browser.Effect, event: Browser.Event, rest: seq<Browser.Event>)
    requires Browser.Possible(e, event) && Browser.Legal(Browser.Next(e, event), rest)
    ensures Browser.Legal(e, [event] + rest) && Browser.Exec(e, [event] + rest) == Browser.Exec(Browser.Next(e, event), rest)
  {
    assert ([event] + rest)[1..] == rest;
  }

  function InBrowser(events: seq<Browser.Event>): seq<Step> {
    if events == [] then [] else [BrowserEvent(events[0])] + InBrowser(events[1..])
  }

  lemma {:induction false} LiftBrowser(w: World, events: seq<Browser.Event>)
    requires Browser.Legal(w.effect, events)
    ensures Legal(w, InBrowser(events)) && Exec(w, InBrowser(events)) == w.(effect := Browser.Exec(w.effect, events))
    decreases |events|
  {
    if events != [] {
      LiftBrowser(Next(w, BrowserEvent(events[0])), events[1..]);
      OneStep(w, BrowserEvent(events[0]), InBrowser(events[1..]));
    }
  }

  /** The server can subscribe an open socket, if it has not already. */
  lemma SocketGetsLinked(w: World, socket: nat) returns (steps: seq<Step>)
    requires Inv(w) && AtWork(w.hub) && Listening(w.effect, socket)
    ensures Legal(w, steps)
    ensures
      var t := Exec(w, steps);
      && Inv(t) && AtWork(t.hub) && t.stream == w.stream && Listening(t.effect, socket)
      && socket in t.links && (socket !in w.links ==> t.links[socket] == Link(|w.hub.all|, 0))
  {
    if socket in w.links {
      steps := [];
    } else {
      StepKeepsInv(w, Accept(socket));
      Hub.StepKeepsInv(w.hub, Hub.Upgrade(w.agent));
      HubService.StepKeepsService(w.hub, Hub.Upgrade(w.agent));
      OneStep(w, Accept(socket), []);
      steps := [Accept(socket)] + [];
    }
  }

  /** So while the hub is at work, a dashboard that is not disposed of can get connected. */
  lemma GetConnected(w: World) returns (steps: seq<Step>, socket: nat)
    requires Inv(w) && AtWork(w.hub) && !w.effect.disposed
    ensures Legal(w, steps)
    ensures
      var t := Exec(w, steps);
      Inv(t) && AtWork(t.hub) && t.stream == w.stream && socket in t.links && Listening(t.effect, socket)
  {
    var events;
    events, socket := SocketCanOpen(w.effect);
    LiftBrowser(w, events);
    var u := w.(effect := Browser.Exec(w.effect, events));
    RunsKeepInv(w, InBrowser(events));
    var last := SocketGetsLinked(u, socket);
    Concat(w, InBrowser(events), last);
    steps := InBrowser(events) + last;
  }

  // ----- The theorem -----

  /** What a continuation from `w` to `t` has brought to the dashboard: nothing was collected or
      dropped meanwhile, every sample in the agent's logs that no full push had dropped is
      published, and every batch published in between has arrived. */
  ghost predicate BroughtOver(w: World, t: World) {
    && StreamService.SameLogs(w.stream.agent.store, t.stream.agent.store)
    && StreamService.AllPublished(w.stream.agent.store, t.stream)
    && forall p: nat :: |w.stream.published| <= p < |t.stream.published| ==> p in t.at
  }

  /** End to end, in every joint run, wherever the threads, the sockets and the publishers are:
      as long as the hub is calm and live, no write of the stream has failed and the effect is not
      disposed of, some continuation brings everything over. */
  lemma {:induction false} EverySampleCanArrive(cap: nat, agent: string, before: seq<Step>) returns (steps: seq<Step>)
    requires Legal(Init(cap, agent), before)
    requires
      var w := Exec(Init(cap, agent), before);
      w.hub.panic.Calm? && w.hub.phase.Live? && !w.stream.failed && !w.effect.disposed
    ensures
      var w := Exec(Init(cap, agent), before);
      Legal(w, steps) && BroughtOver(w, Exec(w, steps))
  {
    var init := Init(cap, agent);
    JointAtWork(init, before);
    StreamRuns(init, before);
    assert StreamInvariant.Reachable(Exec(init, before).stream);
    steps := ArriveFrom(Exec(init, before));
  }

  lemma ArriveFrom(w: World) returns (steps: seq<Step>)
    requires Inv(w) && AtWork(w.hub) && StreamInvariant.Reachable(w.stream) && !w.stream.failed && !w.effect.disposed
    ensures Legal(w, steps) && BroughtOver(w, Exec(w, steps))
  {
    var first, socket := GetConnected(w);
    var u := Exec(w, first);
    var second := ArriveOver(u, socket);
    Concat(w, first, second);
    steps := first + second;
  }

  lemma ArriveOver(w: World, socket: nat) returns (steps: seq<Step>)
    requires Inv(w) && AtWork(w.hub) && StreamInvariant.Reachable(w.stream) && !w.stream.failed
    requires socket in w.links && Listening(w.effect, socket)
    ensures Legal(w, steps) && BroughtOver(w, Exec(w, steps))
  {
    var run := StreamService.EverySampleCanBePublished(w.stream);
    var first := GetReady(w, socket);
    var last := PublishedNextArrives(Exec(w, first), socket, run);
    Concat(w, first, last);
    steps := first + last;
  }

  lemma {:induction false} JointAtWork(init: World, before: seq<Step>)
    requires Inv(init) && HubService.Service(init.hub) && Legal(init, before)
    ensures Inv(Exec(init, before)) && HubService.Service(Exec(init, before).hub)
  {
    RunsKeepInv(init, before);
    HubRuns(init, before);
    HubService.RunsKeepService(init.hub, HubSteps(init, before));
  }
}
