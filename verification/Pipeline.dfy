/**
 Agent stream, fan-out and one effect instance of the dashboard in one step system: what the
 server loop publishes is what the bus fans out, a socket of the effect is what the hub
 subscribes, and what the socket's pump has written is what its message events deliver.
 */
module Pipeline {
  import opened Telemetry
  import EventBuses
  import Stream = StreamProtocol
  import Hub = HubProtocol
  import Browser = Reconnect

  /** The server's side of a socket: its subscriber, and how many of the frames that the
      subscriber's pump wrote have arrived. */
  datatype Link = Link(sub: nat, arrived: nat)

  datatype World = World(
    agent: string,                  // the agent whose stream this is, and that the effect watches
    stream: Stream.Sys,
    hub: Hub.Hub,
    effect: Browser.Effect,
    links: map<nat, Link>,          // by the effect's socket number
    received: seq<Batch>,           // what `onmessage` has ingested since the effect emptied the store
    at: seq<nat>)                   // history: which of the published batches those are

  datatype Step =
    | AgentStep(step: Stream.Step)      // collector, poll thread, callbacks, server loop
    | HubStep(action: Hub.Step)         // other clients, other agents, run loop, sends, pumps
    | Accept(socket: nat)               // HandleWS subscribes for a socket of the effect
    | BrowserEvent(event: Browser.Event)
    | MessageEvent(socket: nat)         // the next frame reaches `onmessage`

  function Init(cap: nat, agent: string): World {
    World(agent, Stream.Init(cap), Hub.INIT, Browser.Start(), map[], [], [])
  }

  /** The server loop's call of Publish. */
  predicate Publishes(s: Stream.Sys, step: Stream.Step) {
    step.ServerLoop? && s.server.Publishing?
  }

  const NO_BATCH := Batch(0, 0, None, [], [])

  /** The `n`-th frame a pump writes: the `n`-th batch its channel kept. */
  function Frame(c: EventBuses.Chan, n: nat): Batch {
    if n < |c.kept| && c.kept[n] < |c.offered| then c.offered[c.kept[n]] else NO_BATCH
  }

  lemma FramesAreConsumed(c: EventBuses.Chan, n: nat)
    requires c.Valid() && n < c.taken
    ensures Frame(c, n) == c.Consumed()[n]
  {
  }

  /** The socket is open and its handlers are on: frames are delivered to nobody else. */
  predicate Listening(e: Browser.Effect, socket: nat) {
    socket < |e.sockets| && e.sockets[socket].Opened? && socket !in e.deaf
  }

  predicate Enabled(w: World, step: Step) {
    match step
    case AgentStep(s) =>
      && Stream.Enabled(w.stream, s)
      && (Publishes(w.stream, s) ==> Hub.Enabled(w.hub, Hub.StartPublish(w.agent, w.stream.server.batch)))
      // the ack follows the return of Publish
      && (s.ServerLoop? && w.stream.server.Acking? ==> w.agent !in w.hub.publishing)
    case HubStep(s) => Hub.Enabled(w.hub, s) && !(s.StartPublish? && s.agent == w.agent)
    case Accept(socket) => socket < |w.effect.sockets| && socket !in w.links && Hub.Enabled(w.hub, Hub.Upgrade(w.agent))
    case BrowserEvent(event) => Browser.Possible(w.effect, event)
    case MessageEvent(socket) =>
      && socket in w.links && Listening(w.effect, socket)
      && w.links[socket].sub < |w.hub.all|
      && w.links[socket].arrived < w.hub.all[w.links[socket].sub].chan.taken
  }

  /** Where, among all batches published for the agent, a subscriber's `n`-th kept one is. */
  function Position(sub: Hub.Sub, n: nat): nat {
    sub.since + if n < |sub.chan.kept| then sub.chan.kept[n] else 0
  }

  function Deliver(w: World, socket: nat): World
    requires Enabled(w, MessageEvent(socket))
  {
    var link := w.links[socket];
    var sub := w.hub.all[link.sub];
    w.(links := w.links[socket := link.(arrived := link.arrived + 1)],
       received := w.received + [Frame(sub.chan, link.arrived)],
       at := w.at + [Position(sub, link.arrived)])
  }

  function Next(w: World, step: Step): World
    requires Enabled(w, step)
  {
    match step
    case AgentStep(s) =>
      w.(stream := Stream.Next(w.stream, s),
         hub := if Publishes(w.stream, s) then Hub.Next(w.hub, Hub.StartPublish(w.agent, w.stream.server.batch)) else w.hub)
    case HubStep(s) => w.(hub := Hub.Next(w.hub, s))
    case Accept(socket) =>
      w.(hub := Hub.Next(w.hub, Hub.Upgrade(w.agent)), links := w.links[socket := Link(|w.hub.all|, 0)])
    case BrowserEvent(event) => w.(effect := Browser.Next(w.effect, event))
    case MessageEvent(socket) => Deliver(w, socket)
  }

  ghost predicate Legal(w: World, steps: seq<Step>)
    decreases |steps|
  {
    steps != [] ==> Enabled(w, steps[0]) && Legal(Next(w, steps[0]), steps[1..])
  }

  ghost function Exec(w: World, steps: seq<Step>): World
    requires Legal(w, steps)
    decreases |steps|
  {
    if steps == [] then w else Exec(Next(w, steps[0]), steps[1..])
  }

  /** The stream's own part of a run. */
  function AgentSteps(steps: seq<Step>): seq<Stream.Step> {
    if steps == [] then []
    else (if steps[0].AgentStep? then [steps[0].step] else []) + AgentSteps(steps[1..])
  }

  /** A joint run is a run of the stream, as far as the stream is concerned. */
  lemma {:induction false} StreamRuns(w: World, steps: seq<Step>)
    requires Legal(w, steps)
    ensures Stream.Legal(w.stream, AgentSteps(steps))
    ensures Exec(w, steps).stream == Stream.Exec(w.stream, AgentSteps(steps))
    decreases |steps|
  {
    if steps != [] {
      StreamRuns(Next(w, steps[0]), steps[1..]);
      var rest := AgentSteps(steps[1..]);
      if steps[0].AgentStep? {
        assert AgentSteps(steps)[1..] == rest;
      } else {
        assert AgentSteps(steps) == rest;
      }
    }
  }

  /** What a step does to the hub. */
  function HubPart(w: World, step: Step): seq<Hub.Step> {
    match step
    case AgentStep(s) => if Publishes(w.stream, s) then [Hub.StartPublish(w.agent, w.stream.server.batch)] else []
    case HubStep(a) => [a]
    case Accept(_) => [Hub.Upgrade(w.agent)]
    case BrowserEvent(_) => []
    case MessageEvent(_) => []
  }

  ghost function HubSteps(w: World, steps: seq<Step>): seq<Hub.Step>
    requires Legal(w, steps)
    decreases |steps|
  {
    if steps == [] then [] else HubPart(w, steps[0]) + HubSteps(Next(w, steps[0]), steps[1..])
  }

  /** A joint run is a run of the hub, as far as the hub is concerned. */
  lemma {:induction false} HubRuns(w: World, steps: seq<Step>)
    requires Legal(w, steps)
    ensures Hub.Legal(w.hub, HubSteps(w, steps))
    ensures Exec(w, steps).hub == Hub.Exec(w.hub, HubSteps(w, steps))
    decreases |steps|
  {
    if steps != [] {
      var t := Next(w, steps[0]);
      HubRuns(t, steps[1..]);
      var part, rest := HubPart(w, steps[0]), HubSteps(t, steps[1..]);
      HubMoved(w, steps[0]);
      if part == [] {
        assert part + rest == rest;
      } else {
        assert part == [part[0]];
        Hub.OneStep(w.hub, part[0], rest);
      }
    }
  }

  lemma HubMoved(w: World, step: Step)
    requires Enabled(w, step)
    ensures
      var part := HubPart(w, step);
      if part == [] then Next(w, step).hub == w.hub
      else |part| == 1 && Hub.Enabled(w.hub, part[0]) && Next(w, step).hub == Hub.Next(w.hub, part[0])
  {
  }

  function BrowserEvents(steps: seq<Step>): seq<Browser.Event> {
    if steps == [] then []
    else (if steps[0].BrowserEvent? then [steps[0].event] else []) + BrowserEvents(steps[1..])
  }

  /** And a run of the effect. */
  lemma {:induction false} BrowserRuns(w: World, steps: seq<Step>)
    requires Legal(w, steps)
    ensures Browser.Legal(w.effect, BrowserEvents(steps))
    ensures Exec(w, steps).effect == Browser.Exec(w.effect, BrowserEvents(steps))
    decreases |steps|
  {
    if steps != [] {
      BrowserRuns(Next(w, steps[0]), steps[1..]);
      var rest := BrowserEvents(steps[1..]);
      if steps[0].BrowserEvent? {
        assert BrowserEvents(steps)[1..] == rest;
      } else {
        assert BrowserEvents(steps) == rest;
      }
    }
  }

  // ----- What every step keeps -----

  /** Links lead from sockets of the effect to subscribers of the agent, and no more arrived
      than was written. */
  ghost predicate LinksOk(links: map<nat, Link>, sockets: nat, all: seq<Hub.Sub>, agent: string) {
    forall n :: n in links ==> n < sockets && LinkOk(links[n], all, agent)
  }

  ghost predicate LinkOk(link: Link, all: seq<Hub.Sub>, agent: string) {
    link.sub < |all| && all[link.sub].agent == agent && link.arrived <= all[link.sub].chan.taken
  }

  /** The least position the next frame can have. */
  function Front(sub: Hub.Sub, arrived: nat): nat {
    if arrived == 0 then sub.since else Position(sub, arrived - 1) + 1
  }

  ghost predicate AllBelow(at: seq<nat>, bound: nat) {
    forall i :: 0 <= i < |at| ==> at[i] < bound
  }

  /** Sockets that may still deliver are ahead of everything that has arrived. */
  ghost predicate AheadOk(links: map<nat, Link>, e: Browser.Effect, all: seq<Hub.Sub>, at: seq<nat>) {
    forall n :: n in links && links[n].sub < |all| && Alive(e, n) ==>
      AllBelow(at, Front(all[links[n].sub], links[n].arrived))
  }

  predicate Alive(e: Browser.Effect, n: nat) {
    n < |e.sockets| && !e.sockets[n].Closed? && n !in e.deaf
  }

  ghost predicate ReceivedOk(received: seq<Batch>, published: seq<Batch>, at: seq<nat>) {
    && StrictlyIncreasing(at) && AllBelow(at, |published|)
    && received == Pick(published, at)
  }

  /** The dashboard's side. */
  ghost predicate DashboardOk(w: World) {
    && LinksOk(w.links, |w.effect.sockets|, w.hub.all, w.agent)
    && AheadOk(w.links, w.effect, w.hub.all, w.at)
    && ReceivedOk(w.received, w.stream.published, w.at)
  }

  ghost predicate Inv(w: World) {
    && Hub.Inv(w.hub) && Browser.Inv(w.effect)
    && Hub.History(w.hub.published, w.agent) == w.stream.published
    && DashboardOk(w)
  }

  // ----- The server's side -----

  /** A subscriber's agent and start never change, and its channel only grows. */
  ghost predicate SubGrows(s: Hub.Sub, t: Hub.Sub) {
    && t.agent == s.agent && t.since == s.since
    && s.chan.kept <= t.chan.kept && s.chan.taken <= t.chan.taken
  }

  ghost predicate SubsGrow(all: seq<Hub.Sub>, later: seq<Hub.Sub>) {
    |all| <= |later| && forall i :: 0 <= i < |all| ==> SubGrows(all[i], later[i])
  }

  lemma OneGrows(all: seq<Hub.Sub>, i: nat, sub: Hub.Sub)
    requires i < |all| && SubGrows(all[i], sub)
    ensures SubsGrow(all, all[i := sub])
  {
  }

  lemma UnsubscribeGrows(h: Hub.Hub, id: nat)
    ensures SubsGrow(h.all, Hub.Unsubscribe(h, id).all)
  {
    if id < |h.all| && !h.all[id].chan.closed {
      OneGrows(h.all, id, h.all[id].(chan := h.all[id].chan.(closed := true)));
    }
  }

  lemma SendGrows(h: Hub.Hub, agent: string)
    requires agent in h.publishing && h.publishing[agent].rest != []
    ensures SubsGrow(h.all, Hub.Send(h, agent).all)
  {
    var p := h.publishing[agent];
    var id := p.rest[0];
    if id < |h.all| && !h.all[id].chan.closed {
      OneGrows(h.all, id, h.all[id].(chan := h.all[id].chan.Offer(p.batch)));
    }
  }

  lemma HubStepGrows(h: Hub.Hub, step: Hub.Step)
    requires Hub.Enabled(h, step)
    ensures SubsGrow(h.all, Hub.Next(h, step).all)
  {
    match step
    case Upgrade(_) =>
    case RunRemove => UnsubscribeGrows(h, h.remove[0]);
    case DrainOne(id) => UnsubscribeGrows(h, id);
    case SendNext(agent) => SendGrows(h, agent);
    case PumpTake(id) => OneGrows(h.all, id, h.all[id].(chan := h.all[id].chan.Take()));
    case _ => assert Hub.Next(h, step).all == h.all;
  }

  lemma HubStepPublishes(h: Hub.Hub, step: Hub.Step, agent: string)
    requires Hub.Enabled(h, step)
    ensures Hub.History(Hub.Next(h, step).published, agent) ==
      Hub.History(h.published, agent) + if step.StartPublish? && step.agent == agent then [step.batch] else []
  {
  }

  ghost predicate NoneOvertaken(all: seq<Hub.Sub>) {
    forall i :: 0 <= i < |all| ==> all[i].chan.taken <= |all[i].chan.kept|
  }

  lemma NothingIsTakenTwice(h: Hub.Hub)
    requires Hub.SubsOk(h.all, h.published, h.publishing)
    ensures NoneOvertaken(h.all)
  {
    forall i | 0 <= i < |h.all| ensures h.all[i].chan.taken <= |h.all[i].chan.kept| {
      assert Hub.SubOk(h.all[i], i, h.published, h.publishing);
    }
  }

  lemma FrontStays(s: Hub.Sub, t: Hub.Sub, arrived: nat)
    requires SubGrows(s, t) && arrived <= s.chan.taken <= |s.chan.kept|
    ensures Front(t, arrived) == Front(s, arrived) && arrived <= t.chan.taken
  {
  }

  /** Links and fronts survive whatever the hub does. */
  lemma HubKeepsLinks(links: map<nat, Link>, e: Browser.Effect, all: seq<Hub.Sub>, later: seq<Hub.Sub>, agent: string, at: seq<nat>)
    requires SubsGrow(all, later) && NoneOvertaken(all)
    requires LinksOk(links, |e.sockets|, all, agent) && AheadOk(links, e, all, at)
    ensures LinksOk(links, |e.sockets|, later, agent) && AheadOk(links, e, later, at)
  {
    forall n | n in links
      ensures LinkOk(links[n], later, agent)
      ensures Front(later[links[n].sub], links[n].arrived) == Front(all[links[n].sub], links[n].arrived)
    {
      assert LinkOk(links[n], all, agent);
      FrontStays(all[links[n].sub], later[links[n].sub], links[n].arrived);
    }
  }

  /** What a step of the hub leaves of the joint invariant's server side. */
  lemma HubMoves(w: World, step: Hub.Step)
    requires Inv(w) && Hub.Enabled(w.hub, step)
    ensures
      var hub := Hub.Next(w.hub, step);
      && Hub.Inv(hub) && LinksOk(w.links, |w.effect.sockets|, hub.all, w.agent)
      && AheadOk(w.links, w.effect, hub.all, w.at)
      && Hub.History(hub.published, w.agent) ==
           w.stream.published + if step.StartPublish? && step.agent == w.agent then [step.batch] else []
  {
    Hub.StepKeepsInv(w.hub, step);
    HubStepGrows(w.hub, step);
    HubStepPublishes(w.hub, step, w.agent);
    NothingIsTakenTwice(w.hub);
    HubKeepsLinks(w.links, w.effect, w.hub.all, Hub.Next(w.hub, step).all, w.agent, w.at);
  }

  lemma PublishingKeepsReceived(received: seq<Batch>, published: seq<Batch>, at: seq<nat>, more: seq<Batch>)
    requires ReceivedOk(received, published, at)
    ensures ReceivedOk(received, published + more, at)
  {
  }

  lemma HubStepKeepsInv(w: World, step: Hub.Step)
    requires Inv(w) && Enabled(w, HubStep(step))
    ensures Inv(Next(w, HubStep(step)))
  {
    HubMoves(w, step);
  }

  lemma StreamStepPublishes(s: Stream.Sys, step: Stream.Step)
    requires Stream.Enabled(s, step)
    ensures Stream.Next(s, step).published == s.published + if Publishes(s, step) then [s.server.batch] else []
  {
    match step
    case ServerLoop =>
    case PollThread => assert Stream.PollNext(s).published == s.published;
    case ReadDone => assert Stream.ReadNext(s).published == s.published;
    case Collect(_) | WriteDone | WriteFailed | CallbackWrite =>
  }

  lemma AgentStepKeepsInv(w: World, step: Stream.Step)
    requires Inv(w) && Enabled(w, AgentStep(step))
    ensures Inv(Next(w, AgentStep(step)))
  {
    StreamStepPublishes(w.stream, step);
    if Publishes(w.stream, step) {
      HubMoves(w, Hub.StartPublish(w.agent, w.stream.server.batch));
      PublishingKeepsReceived(w.received, w.stream.published, w.at, [w.stream.server.batch]);
    }
  }

  /** A new subscriber starts behind everything published, hence behind all that arrived. */
  lemma AcceptKeepsInv(w: World, socket: nat)
    requires Inv(w) && Enabled(w, Accept(socket))
    ensures Inv(Next(w, Accept(socket)))
  {
    HubMoves(w, Hub.Upgrade(w.agent));
    var all := Hub.Next(w.hub, Hub.Upgrade(w.agent)).all;
    assert all == w.hub.all + [Hub.Sub(w.agent, |w.stream.published|, EventBuses.EMPTY_CHAN)];
    LinkOneMore(w.links, socket, |w.hub.all|, w.effect, all, w.agent, w.at);
  }

  lemma LinkOneMore(links: map<nat, Link>, socket: nat, sub: nat, e: Browser.Effect, all: seq<Hub.Sub>, agent: string, at: seq<nat>)
    requires LinksOk(links, |e.sockets|, all, agent) && AheadOk(links, e, all, at)
    requires socket < |e.sockets| && sub < |all| && all[sub].agent == agent && AllBelow(at, all[sub].since)
    ensures LinksOk(links[socket := Link(sub, 0)], |e.sockets|, all, agent)
    ensures AheadOk(links[socket := Link(sub, 0)], e, all, at)
  {
  }

  // ----- The browser's side -----

  /** Sockets come to an end, lose their handlers or are new: none revives. */
  lemma NoSocketRevives(e: Browser.Effect, event: Browser.Event)
    requires Browser.Possible(e, event)
    ensures |e.sockets| <= |Browser.Next(e, event).sockets|
    ensures forall n :: 0 <= n < |e.sockets| && Alive(Browser.Next(e, event), n) ==> Alive(e, n)
  {
  }

  lemma BrowserKeepsInv(w: World, event: Browser.Event)
    requires Inv(w) && Enabled(w, BrowserEvent(event))
    ensures Inv(Next(w, BrowserEvent(event)))
  {
    Browser.StepKeepsInv(w.effect, event);
    NoSocketRevives(w.effect, event);
  }

  /** No other socket can deliver. */
  ghost predicate Sole(e: Browser.Effect, socket: nat) {
    Alive(e, socket) && forall n :: Alive(e, n) ==> n == socket
  }

  /** Only the current socket is alive, and none after disposal. */
  lemma ListeningIsSole(e: Browser.Effect, socket: nat)
    requires Browser.Inv(e) && Listening(e, socket)
    ensures Sole(e, socket)
  {
  }

  /** The next frame is a published batch, further on than everything that has arrived. */
  lemma NextFrame(sub: Hub.Sub, n: nat, history: seq<Batch>)
    requires sub.chan.Valid() && sub.since <= |history| && sub.chan.offered <= history[sub.since..]
    requires n < sub.chan.taken
    ensures Front(sub, n) <= Position(sub, n) < |history|
    ensures Frame(sub.chan, n) == history[Position(sub, n)]
    ensures Front(sub, n + 1) == Position(sub, n) + 1
  {
    var k := sub.chan.kept[n];
    assert sub.chan.offered[k] == history[sub.since..][k];
  }

  lemma FrameOfHub(h: Hub.Hub, agent: string, link: Link)
    requires Hub.SubsOk(h.all, h.published, h.publishing) && LinkOk(link, h.all, agent)
    requires link.arrived < h.all[link.sub].chan.taken
    ensures
      var sub, n, all := h.all[link.sub], link.arrived, Hub.History(h.published, agent);
      && Front(sub, n) <= Position(sub, n) < |all|
      && Frame(sub.chan, n) == all[Position(sub, n)] && Front(sub, n + 1) == Position(sub, n) + 1
  {
    assert Hub.SubOk(h.all[link.sub], link.sub, h.published, h.publishing);
    NextFrame(h.all[link.sub], link.arrived, Hub.History(h.published, agent));
  }

  lemma MessageKeepsLinks(links: map<nat, Link>, socket: nat, e: Browser.Effect, all: seq<Hub.Sub>, agent: string, at: seq<nat>, p: nat)
    requires LinksOk(links, |e.sockets|, all, agent) && Sole(e, socket) && socket in links && links[socket].sub < |all|
    requires links[socket].arrived < all[links[socket].sub].chan.taken
    requires AllBelow(at + [p], Front(all[links[socket].sub], links[socket].arrived + 1))
    ensures
      var next := links[socket := links[socket].(arrived := links[socket].arrived + 1)];
      LinksOk(next, |e.sockets|, all, agent) && AheadOk(next, e, all, at + [p])
  {
    assert LinkOk(links[socket], all, agent);
  }

  lemma ReceiveOneMore(received: seq<Batch>, published: seq<Batch>, at: seq<nat>, p: nat)
    requires ReceivedOk(received, published, at) && AllBelow(at, p) && p < |published|
    ensures ReceivedOk(received + [published[p]], published, at + [p])
  {
  }

  lemma MessageIsReceived(w: World, link: Link)
    requires LinkOk(link, w.hub.all, w.agent) && link.arrived < w.hub.all[link.sub].chan.taken
    requires Hub.SubsOk(w.hub.all, w.hub.published, w.hub.publishing)
    requires Hub.History(w.hub.published, w.agent) == w.stream.published
    requires AllBelow(w.at, Front(w.hub.all[link.sub], link.arrived)) && ReceivedOk(w.received, w.stream.published, w.at)
    ensures
      var sub, p := w.hub.all[link.sub], Position(w.hub.all[link.sub], link.arrived);
      && AllBelow(w.at + [p], Front(sub, link.arrived + 1))
      && ReceivedOk(w.received + [Frame(sub.chan, link.arrived)], w.stream.published, w.at + [p])
  {
    FrameOfHub(w.hub, w.agent, link);
    ReceiveOneMore(w.received, w.stream.published, w.at, Position(w.hub.all[link.sub], link.arrived));
  }

  /** A link that may still deliver is in order and ahead. */
  lemma LinkIsAhead(w: World, socket: nat)
    requires DashboardOk(w) && socket in w.links && Alive(w.effect, socket)
    ensures LinkOk(w.links[socket], w.hub.all, w.agent)
    ensures AllBelow(w.at, Front(w.hub.all[w.links[socket].sub], w.links[socket].arrived))
  {
  }

  lemma DeliveredDashboard(w: World, socket: nat)
    requires Enabled(w, MessageEvent(socket))
    requires
      var link := w.links[socket];
      var next, p := w.links[socket := link.(arrived := link.arrived + 1)], Position(w.hub.all[link.sub], link.arrived);
      && LinksOk(next, |w.effect.sockets|, w.hub.all, w.agent) && AheadOk(next, w.effect, w.hub.all, w.at + [p])
      && ReceivedOk(w.received + [Frame(w.hub.all[link.sub].chan, link.arrived)], w.stream.published, w.at + [p])
    ensures DashboardOk(Deliver(w, socket))
  {
  }

  lemma MessageKeepsDashboard(w: World, socket: nat)
    requires Enabled(w, MessageEvent(socket)) && DashboardOk(w) && Sole(w.effect, socket)
    requires Hub.SubsOk(w.hub.all, w.hub.published, w.hub.publishing)
    requires Hub.History(w.hub.published, w.agent) == w.stream.published
    ensures DashboardOk(Deliver(w, socket))
  {
    var link := w.links[socket];
    LinkIsAhead(w, socket);
    MessageIsReceived(w, link);
    MessageKeepsLinks(w.links, socket, w.effect, w.hub.all, w.agent, w.at, Position(w.hub.all[link.sub], link.arrived));
    DeliveredDashboard(w, socket);
  }

  lemma MessageKeepsInv(w: World, socket: nat)
    requires Inv(w) && Enabled(w, MessageEvent(socket))
    ensures Inv(Next(w, MessageEvent(socket)))
  {
    ListeningIsSole(w.effect, socket);
    MessageKeepsDashboard(w, socket);
  }

  lemma StepKeepsInv(w: World, step: Step)
    requires Inv(w) && Enabled(w, step)
    ensures Inv(Next(w, step))
  {
    match step
    case AgentStep(s) => AgentStepKeepsInv(w, s);
    case HubStep(s) => HubStepKeepsInv(w, s);
    case Accept(socket) => AcceptKeepsInv(w, socket);
    case BrowserEvent(event) => BrowserKeepsInv(w, event);
    case MessageEvent(socket) => MessageKeepsInv(w, socket);
  }

  lemma {:induction false} RunsKeepInv(w: World, steps: seq<Step>)
    requires Inv(w) && Legal(w, steps)
    ensures Inv(Exec(w, steps))
    decreases |steps|
  {
    if steps != [] {
      StepKeepsInv(w, steps[0]);
      RunsKeepInv(Next(w, steps[0]), steps[1..]);
    }
  }

  /** Over any number of reconnects: what has been received, over all sockets in the order of
      arrival, are batches at strictly increasing positions of what the stream published. */
  lemma {:induction false} ReconnectsKeepOrder(cap: nat, agent: string, steps: seq<Step>)
    requires Legal(Init(cap, agent), steps)
    ensures
      var w := Exec(Init(cap, agent), steps);
      && StrictlyIncreasing(w.at) && AllBelow(w.at, |w.stream.published|)
      && w.received == Pick(w.stream.published, w.at)
  {
    RunsKeepInv(Init(cap, agent), steps);
  }
}
