/**
 The server's fan-out as a step system: WebSocket handlers that subscribe and register,
 the hub's run loop, the pump of each client, and publishers that send to one subscriber
 after the other. Channel safety and conservation hold over whole runs.
 */
module HubProtocol {
  import opened Telemetry
  import opened EventBuses

  const HUB_CHANNEL_CAPACITY := 16

  /** A subscriber; its number doubles as the number of its WebSocket client. `since` counts
      what had been published for the agent when it subscribed. */
  datatype Sub = Sub(agent: string, since: nat, chan: Chan)

  /** A Publish call after it copied the list: who is still to be sent to. */
  datatype Publisher = Publisher(rest: seq<nat>, batch: Batch)

  datatype Phase = Live | Draining | Stopped
  datatype Pump = Pumping | Leaving | Gone
  datatype Panic = Calm | CloseOfClosed | SendOnClosed

  datatype Hub = Hub(
    all: seq<Sub>,                         // every subscriber ever made
    subs: map<string, seq<nat>>,           // the bus's lists
    published: map<string, seq<Batch>>,    // history: what was published for each agent
    publishing: map<string, Publisher>,    // Publish calls in progress; an agent's stream has one at a time
    arriving: set<nat>,                    // HandleWS between Subscribe and its send on `register`
    register: seq<nat>,
    remove: seq<nat>,
    clients: set<nat>,
    pumps: map<nat, Pump>,
    phase: Phase,
    closing: bool,                         // the shutdown channel is closed
    panic: Panic)

  datatype Step =
    | Upgrade(agent: string)               // HandleWS up to Subscribe
    | RegisterSend(id: nat)
    | RunRegister
    | RunRemove
    | RunShutdown                          // the run loop sees the shutdown channel
    | DrainOne(id: nat)
    | DrainEnd
    | CloseHub
    | StartPublish(agent: string, batch: Batch)
    | SendNext(agent: string)
    | EndPublish(agent: string)
    | PumpTake(id: nat)
    | PumpEnd(id: nat)
    | PumpLeave(id: nat)

  const INIT := Hub([], map[], map[], map[], {}, [], [], {}, map[], Live, false, Calm)

  function List(subs: map<string, seq<nat>>, agent: string): seq<nat> {
    if agent in subs then subs[agent] else []
  }

  function History(published: map<string, seq<Batch>>, agent: string): seq<Batch> {
    if agent in published then published[agent] else []
  }

  predicate PumpAt(h: Hub, id: nat, pump: Pump) {
    id in h.pumps && h.pumps[id] == pump
  }

  predicate Enabled(h: Hub, step: Step) {
    h.panic.Calm? &&
    match step
    case Upgrade(_) => true
    case RegisterSend(id) => id in h.arriving && |h.register| < HUB_CHANNEL_CAPACITY
    case RunRegister => h.phase.Live? && h.register != []
    case RunRemove => h.phase.Live? && h.remove != []
    case RunShutdown => h.phase.Live? && h.closing
    case DrainOne(id) => h.phase.Draining? && id in h.clients
    case DrainEnd => h.phase.Draining? && h.clients == {}
    case CloseHub => true
    case StartPublish(agent, _) => agent !in h.publishing
    case SendNext(agent) => agent in h.publishing && h.publishing[agent].rest != []
    case EndPublish(agent) => agent in h.publishing && h.publishing[agent].rest == []
    case PumpTake(id) => PumpAt(h, id, Pumping) && id < |h.all| && h.all[id].chan.queue != []
    case PumpEnd(id) => PumpAt(h, id, Pumping) && id < |h.all| && h.all[id].chan.queue == [] && h.all[id].chan.closed
    case PumpLeave(id) => PumpAt(h, id, Leaving) && |h.remove| < HUB_CHANNEL_CAPACITY
  }

  /** `EventBus.Unsubscribe`. */
  function Unsubscribe(h: Hub, id: nat): Hub {
    if id >= |h.all| then h
    else if h.all[id].chan.closed then h.(panic := CloseOfClosed)
    else
      var sub := h.all[id];
      h.(all := h.all[id := sub.(chan := sub.chan.(closed := true))],
         subs := h.subs[sub.agent := RemoveFirst(List(h.subs, sub.agent), id)])
  }

  function Send(h: Hub, agent: string): Hub
    requires agent in h.publishing && h.publishing[agent].rest != []
  {
    var p := h.publishing[agent];
    var id := p.rest[0];
    if id >= |h.all| then h
    else if h.all[id].chan.closed then h.(panic := SendOnClosed)
    else
      var sub := h.all[id];
      h.(all := h.all[id := sub.(chan := sub.chan.Offer(p.batch))],
         publishing := h.publishing[agent := p.(rest := p.rest[1..])])
  }

  function Next(h: Hub, step: Step): Hub
    requires Enabled(h, step)
  {
    match step
    case Upgrade(agent) =>
      var id := |h.all|;
      h.(all := h.all + [Sub(agent, |History(h.published, agent)|, EMPTY_CHAN)],
         subs := h.subs[agent := List(h.subs, agent) + [id]],
         arriving := h.arriving + {id})
    case RegisterSend(id) => h.(arriving := h.arriving - {id}, register := h.register + [id])
    case RunRegister =>
      var c := h.register[0];
      h.(register := h.register[1..], clients := h.clients + {c}, pumps := h.pumps[c := Pumping])
    case RunRemove =>
      var c := h.remove[0];
      Unsubscribe(h, c).(remove := h.remove[1..], clients := h.clients - {c})
    case RunShutdown => h.(phase := Draining)
    case DrainOne(id) => Unsubscribe(h, id).(clients := h.clients - {id})
    case DrainEnd => h.(phase := Stopped)
    case CloseHub => if h.closing then h.(panic := CloseOfClosed) else h.(closing := true)
    case StartPublish(agent, b) =>
      h.(publishing := h.publishing[agent := Publisher(List(h.subs, agent), b)],
         published := h.published[agent := History(h.published, agent) + [b]])
    case SendNext(agent) => Send(h, agent)
    case EndPublish(agent) => h.(publishing := h.publishing - {agent})
    case PumpTake(id) => h.(all := h.all[id := h.all[id].(chan := h.all[id].chan.Take())])
    case PumpEnd(id) => h.(pumps := h.pumps[id := Leaving])
    case PumpLeave(id) => h.(pumps := h.pumps[id := Gone], remove := h.remove + [id])
  }

  ghost predicate Legal(h: Hub, steps: seq<Step>)
    decreases |steps|
  {
    steps != [] ==> Enabled(h, steps[0]) && Legal(Next(h, steps[0]), steps[1..])
  }

  ghost function Exec(h: Hub, steps: seq<Step>): Hub
    requires Legal(h, steps)
    decreases |steps|
  {
    if steps == [] then h else Exec(Next(h, steps[0]), steps[1..])
  }

  /** Some registered client is on the list. */
  ghost predicate Meets(list: seq<nat>, clients: set<nat>) {
    exists i :: i in list && i in clients
  }

  /** What `main` has to ensure: the hub is closed once; when the run loop starts to drain, no
      Publish in progress is still to reach a client; and while it drains, no Publish starts
      for an agent that has clients left to drain. */
  ghost predicate Orderly(h: Hub, step: Step) {
    match step
    case CloseHub => !h.closing
    case RunShutdown => forall a :: a in h.publishing ==> !Meets(h.publishing[a].rest, h.clients)
    case StartPublish(agent, _) => h.phase.Draining? ==> !Meets(List(h.subs, agent), h.clients)
    case _ => true
  }

  ghost predicate OrderlyRun(h: Hub, steps: seq<Step>)
    requires Legal(h, steps)
    decreases |steps|
  {
    steps != [] ==> Orderly(h, steps[0]) && OrderlyRun(Next(h, steps[0]), steps[1..])
  }

  // ----- What every step keeps -----

  /** A client is where exactly one of the three hand-over places says it is. */
  ghost predicate ClientsOk(arriving: set<nat>, register: seq<nat>, clients: set<nat>, n: nat) {
    && Distinct(register)
    && (forall i :: i in arriving ==> i < n && i !in register && i !in clients)
    && (forall i :: i in register ==> i < n && i !in clients)
    && forall i :: i in clients ==> i < n
  }

  /** Only a drained client's channel is ever closed. */
  ghost predicate ClosedOk(h: Hub) {
    && forall i :: 0 <= i < |h.all| && h.all[i].chan.closed ==>
         !h.phase.Live? && i !in h.arriving && i !in h.register && i !in h.clients
  }

  /** A pump leaves only after its channel was closed, so nothing is in `remove` before. */
  ghost predicate PumpsOk(h: Hub) {
    && (forall i :: i in h.pumps && !h.pumps[i].Pumping? ==> i < |h.all| && h.all[i].chan.closed)
    && forall i :: i in h.remove ==> i in h.pumps && h.pumps[i].Gone?
  }

  /** The bus's lists hold exactly the open subscribers of their agent. */
  ghost predicate ListsOk(all: seq<Sub>, subs: map<string, seq<nat>>) {
    && (forall a :: a in subs ==> Distinct(subs[a]))
    && forall a, i: nat :: OnList(subs, a, i) <==> OpenFor(all, a, i)
  }

  ghost predicate OnList(subs: map<string, seq<nat>>, agent: string, id: nat) {
    id in List(subs, agent)
  }

  ghost predicate OpenFor(all: seq<Sub>, agent: string, id: nat) {
    id < |all| && all[id].agent == agent && !all[id].chan.closed
  }

  ghost predicate PublishersOk(all: seq<Sub>, publishing: map<string, Publisher>) {
    forall a :: a in publishing ==>
      && Distinct(publishing[a].rest)
      && forall i :: i in publishing[a].rest ==> i < |all| && all[i].agent == a
  }

  /** What a publisher in progress still owes to a subscriber. */
  ghost function Owed(publishing: map<string, Publisher>, agent: string, id: nat): seq<Batch> {
    if agent in publishing && id in publishing[agent].rest then [publishing[agent].batch] else []
  }

  /** An open channel was offered, or is about to be offered, exactly what was published for
      its agent since it subscribed; a closed one the beginning of it. */
  ghost predicate SubOk(s: Sub, id: nat, published: map<string, seq<Batch>>, publishing: map<string, Publisher>) {
    && s.chan.Valid()
    && s.since <= |History(published, s.agent)|
    && s.chan.offered <= History(published, s.agent)[s.since..]
    && (!s.chan.closed ==> s.chan.offered + Owed(publishing, s.agent, id) == History(published, s.agent)[s.since..])
  }

  ghost predicate SubsOk(all: seq<Sub>, published: map<string, seq<Batch>>, publishing: map<string, Publisher>) {
    forall i :: 0 <= i < |all| ==> SubOk(all[i], i, published, publishing)
  }

  ghost predicate Inv(h: Hub) {
    && ClientsOk(h.arriving, h.register, h.clients, |h.all|)
    && ClosedOk(h) && PumpsOk(h)
    && ListsOk(h.all, h.subs)
    && PublishersOk(h.all, h.publishing)
    && SubsOk(h.all, h.published, h.publishing)
  }

  /** In orderly runs a publisher in progress faces neither a closed channel nor one that is
      about to be closed. */
  ghost predicate NoClash(h: Hub) {
    forall a :: a in h.publishing ==>
      && (h.phase.Draining? ==> !Meets(h.publishing[a].rest, h.clients))
      && forall i :: i in h.publishing[a].rest && i < |h.all| ==> !h.all[i].chan.closed
  }

  // ----- Step by step -----

  lemma SubscribeKeepsLists(all: seq<Sub>, subs: map<string, seq<nat>>, s: Sub)
    requires ListsOk(all, subs) && !s.chan.closed
    ensures ListsOk(all + [s], subs[s.agent := List(subs, s.agent) + [|all|]])
  {
    var now := subs[s.agent := List(subs, s.agent) + [|all|]];
    assert !OnList(subs, s.agent, |all|);
    forall a, i: nat ensures OnList(now, a, i) <==> OpenFor(all + [s], a, i) {
      assert OnList(now, a, i) <==> OnList(subs, a, i) || (a == s.agent && i == |all|);
    }
  }

  lemma SubscribeKeepsSubs(h: Hub, s: Sub)
    requires SubsOk(h.all, h.published, h.publishing) && PublishersOk(h.all, h.publishing)
    requires s.chan == EMPTY_CHAN && s.since == |History(h.published, s.agent)|
    ensures SubsOk(h.all + [s], h.published, h.publishing) && PublishersOk(h.all + [s], h.publishing)
  {
    forall i | 0 <= i < |h.all + [s]| ensures SubOk((h.all + [s])[i], i, h.published, h.publishing) {
      if i < |h.all| { assert SubOk(h.all[i], i, h.published, h.publishing); }
    }
  }

  lemma UpgradeKeepsPlaces(h: Hub, agent: string)
    requires ClientsOk(h.arriving, h.register, h.clients, |h.all|) && ClosedOk(h) && PumpsOk(h)
    requires Enabled(h, Upgrade(agent))
    ensures
      var t := Next(h, Upgrade(agent));
      ClientsOk(t.arriving, t.register, t.clients, |t.all|) && ClosedOk(t) && PumpsOk(t)
  {
  }

  lemma UpgradeKeepsInv(h: Hub, agent: string)
    requires Inv(h) && Enabled(h, Upgrade(agent))
    ensures Inv(Next(h, Upgrade(agent)))
  {
    var s := Sub(agent, |History(h.published, agent)|, EMPTY_CHAN);
    SubscribeKeepsLists(h.all, h.subs, s);
    SubscribeKeepsSubs(h, s);
    UpgradeKeepsPlaces(h, agent);
  }

  lemma RegisterKeepsInv(h: Hub, id: nat)
    requires Inv(h) && Enabled(h, RegisterSend(id))
    ensures Inv(Next(h, RegisterSend(id)))
  {
  }

  lemma RunRegisterKeepsInv(h: Hub)
    requires Inv(h) && Enabled(h, RunRegister)
    ensures Inv(Next(h, RunRegister))
  {
    var c, rest := h.register[0], h.register[1..];
    assert h.register == [c] + rest;
    assert c in h.register && c !in rest;
    forall i | i in rest ensures i in h.register { }
  }

  /** While the run loop is live the remove queue is empty, so that branch is dead. */
  lemma RemoveIsEmptyWhileLive(h: Hub)
    requires Inv(h) && h.phase.Live?
    ensures h.remove == [] && forall i :: 0 <= i < |h.all| ==> OpenFor(h.all, h.all[i].agent, i)
  {
    FrontIsMember(h.remove);
  }

  lemma FrontIsMember(s: seq<nat>)
    ensures s == [] || s[0] in s
  {
  }

  lemma {:induction false} RemoveFirstOfDistinct<T>(s: seq<T>, x: T)
    requires Distinct(s)
    ensures Distinct(RemoveFirst(s, x))
    ensures forall y :: y in RemoveFirst(s, x) <==> y in s && y != x
  {
    if s != [] {
      RemoveFirstOfDistinct(s[1..], x);
      assert s == [s[0]] + s[1..];
      var r := RemoveFirst(s, x);
      if s[0] != x {
        forall i, j | 0 <= i < j < |r| ensures r[i] != r[j] {
          if i == 0 { assert r[j] in RemoveFirst(s[1..], x); }
        }
      }
    }
  }

  lemma UnsubscribeKeepsLists(all: seq<Sub>, subs: map<string, seq<nat>>, id: nat)
    requires ListsOk(all, subs) && id < |all| && !all[id].chan.closed
    ensures ListsOk(all[id := all[id].(chan := all[id].chan.(closed := true))],
                    subs[all[id].agent := RemoveFirst(List(subs, all[id].agent), id)])
  {
    var agent := all[id].agent;
    var now := subs[agent := RemoveFirst(List(subs, agent), id)];
    var later := all[id := all[id].(chan := all[id].chan.(closed := true))];
    RemoveFirstOfDistinct(List(subs, agent), id);
    forall a, i: nat ensures OnList(now, a, i) <==> OpenFor(later, a, i) {
      assert OnList(now, a, i) <==> OnList(subs, a, i) && !(a == agent && i == id);
    }
  }

  lemma CloseKeepsSubs(h: Hub, id: nat)
    requires SubsOk(h.all, h.published, h.publishing) && PublishersOk(h.all, h.publishing) && id < |h.all|
    ensures
      var later := h.all[id := h.all[id].(chan := h.all[id].chan.(closed := true))];
      SubsOk(later, h.published, h.publishing) && PublishersOk(later, h.publishing)
  {
    var later := h.all[id := h.all[id].(chan := h.all[id].chan.(closed := true))];
    forall i | 0 <= i < |later| ensures SubOk(later[i], i, h.published, h.publishing) {
      assert SubOk(h.all[i], i, h.published, h.publishing);
    }
  }

  lemma DrainKeepsInv(h: Hub, id: nat)
    requires Inv(h) && Enabled(h, DrainOne(id))
    ensures Inv(Next(h, DrainOne(id))) && Next(h, DrainOne(id)).panic.Calm?
  {
    UnsubscribeKeepsLists(h.all, h.subs, id);
    CloseKeepsSubs(h, id);
  }

  lemma PublishKeepsSubs(h: Hub, agent: string, b: Batch)
    requires SubsOk(h.all, h.published, h.publishing) && ListsOk(h.all, h.subs) && agent !in h.publishing
    ensures SubsOk(h.all, h.published[agent := History(h.published, agent) + [b]],
                   h.publishing[agent := Publisher(List(h.subs, agent), b)])
  {
    var published := h.published[agent := History(h.published, agent) + [b]];
    var publishing := h.publishing[agent := Publisher(List(h.subs, agent), b)];
    forall i | 0 <= i < |h.all| ensures SubOk(h.all[i], i, published, publishing) {
      var s := h.all[i];
      assert SubOk(s, i, h.published, h.publishing);
      if s.agent == agent {
        assert History(published, agent)[s.since..] == History(h.published, agent)[s.since..] + [b];
        assert OnList(h.subs, agent, i) <==> OpenFor(h.all, agent, i);
      }
    }
  }

  lemma PublishKeepsPublishers(h: Hub, agent: string, b: Batch)
    requires PublishersOk(h.all, h.publishing) && ListsOk(h.all, h.subs)
    ensures PublishersOk(h.all, h.publishing[agent := Publisher(List(h.subs, agent), b)])
  {
    ListedAreOpen(h.all, h.subs, agent);
  }

  lemma StartPublishKeepsInv(h: Hub, agent: string, b: Batch)
    requires Inv(h) && Enabled(h, StartPublish(agent, b))
    ensures Inv(Next(h, StartPublish(agent, b)))
  {
    PublishKeepsSubs(h, agent, b);
    PublishKeepsPublishers(h, agent, b);
  }

  lemma SendKeepsPublishers(h: Hub, agent: string)
    requires PublishersOk(h.all, h.publishing) && agent in h.publishing && h.publishing[agent].rest != []
    ensures h.publishing[agent].rest[0] < |h.all| && h.all[h.publishing[agent].rest[0]].agent == agent
    ensures PublishersOk(Send(h, agent).all, Send(h, agent).publishing)
  {
    var p := h.publishing[agent];
    assert p.rest[0] in p.rest;
    assert forall i :: i in p.rest[1..] ==> i in p.rest;
  }

  lemma SendKeepsSubs(h: Hub, agent: string)
    requires SubsOk(h.all, h.published, h.publishing) && PublishersOk(h.all, h.publishing)
    requires agent in h.publishing && h.publishing[agent].rest != []
    ensures SubsOk(Send(h, agent).all, h.published, Send(h, agent).publishing)
  {
    SendKeepsPublishers(h, agent);
    var t := Send(h, agent);
    var p := h.publishing[agent];
    var id := p.rest[0];
    assert p.rest == [id] + p.rest[1..];
    assert SubOk(h.all[id], id, h.published, h.publishing);
    OfferKeepsValid(h.all[id].chan, p.batch);
    forall i | 0 <= i < |t.all| ensures SubOk(t.all[i], i, t.published, t.publishing) {
      assert SubOk(h.all[i], i, h.published, h.publishing);
      if i == id && !h.all[id].chan.closed {
        assert id in p.rest && id !in p.rest[1..];
      }
    }
  }

  lemma SendKeepsInv(h: Hub, agent: string)
    requires Inv(h) && Enabled(h, SendNext(agent))
    ensures Inv(Next(h, SendNext(agent)))
  {
    SendKeepsPublishers(h, agent);
    SendKeepsSubs(h, agent);
    SendKeepsShape(h, agent);
  }

  lemma SendKeepsShape(h: Hub, agent: string)
    requires ClosedOk(h) && PumpsOk(h) && ListsOk(h.all, h.subs)
    requires agent in h.publishing && h.publishing[agent].rest != []
    ensures
      var t := Send(h, agent);
      && ClosedOk(t) && PumpsOk(t) && ListsOk(t.all, t.subs) && t.published == h.published && |t.all| == |h.all|
      && t.arriving == h.arriving && t.register == h.register && t.clients == h.clients
  {
    SendFrame(h, agent);
    SameShape(h, Send(h, agent));
  }

  /** A send changes one queue and one publisher. */
  lemma SendFrame(h: Hub, agent: string)
    requires agent in h.publishing && h.publishing[agent].rest != []
    ensures
      var t := Send(h, agent);
      && |t.all| == |h.all| && t.subs == h.subs && t.published == h.published
      && t.arriving == h.arriving && t.register == h.register && t.clients == h.clients
      && t.pumps == h.pumps && t.remove == h.remove && t.phase == h.phase
      && SameDoors(h.all, t.all)
  {
    var p := h.publishing[agent];
    var id := p.rest[0];
    if id < |h.all| && !h.all[id].chan.closed {
      OfferKeepsDoors(h.all, id, p.batch);
    }
  }

  /** The same agents, the same channels closed. */
  ghost predicate SameDoors(a: seq<Sub>, b: seq<Sub>) {
    |a| == |b| && forall i :: 0 <= i < |a| ==> a[i].agent == b[i].agent && a[i].chan.closed == b[i].chan.closed
  }

  lemma OfferKeepsDoors(all: seq<Sub>, id: nat, b: Batch)
    requires id < |all|
    ensures SameDoors(all, all[id := all[id].(chan := all[id].chan.Offer(b))])
  {
  }

  /** Lists and hand-over places do not look at channel contents. */
  lemma SameShape(h: Hub, t: Hub)
    requires ClosedOk(h) && PumpsOk(h) && ListsOk(h.all, h.subs)
    requires SameDoors(h.all, t.all) && t.subs == h.subs
    requires t.arriving == h.arriving && t.register == h.register
    requires t.clients == h.clients && t.pumps == h.pumps && t.remove == h.remove && t.phase == h.phase
    ensures ClosedOk(t) && PumpsOk(t) && ListsOk(t.all, t.subs)
  {
    forall a, i: nat ensures OnList(t.subs, a, i) <==> OpenFor(t.all, a, i) {
      assert OpenFor(t.all, a, i) <==> OpenFor(h.all, a, i);
    }
  }

  lemma EndPublishKeepsInv(h: Hub, agent: string)
    requires Inv(h) && Enabled(h, EndPublish(agent))
    ensures Inv(Next(h, EndPublish(agent)))
  {
    var t := Next(h, EndPublish(agent));
    forall i | 0 <= i < |t.all| ensures SubOk(t.all[i], i, t.published, t.publishing) {
      assert SubOk(h.all[i], i, h.published, h.publishing);
    }
  }

  lemma PumpTakeKeepsInv(h: Hub, id: nat)
    requires Inv(h) && Enabled(h, PumpTake(id))
    ensures Inv(Next(h, PumpTake(id)))
  {
    assert SubOk(h.all[id], id, h.published, h.publishing);
    TakeKeepsValid(h.all[id].chan);
    var t := Next(h, PumpTake(id));
    SameShape(h, t);
    forall i | 0 <= i < |t.all| ensures SubOk(t.all[i], i, t.published, t.publishing) {
      assert SubOk(h.all[i], i, h.published, h.publishing);
    }
  }

  lemma PumpStopKeepsInv(h: Hub, step: Step)
    requires Inv(h) && Enabled(h, step) && (step.PumpEnd? || step.PumpLeave?)
    ensures Inv(Next(h, step))
  {
  }

  lemma PhaseKeepsInv(h: Hub, step: Step)
    requires Inv(h) && Enabled(h, step) && (step.RunShutdown? || step.DrainEnd? || step.CloseHub?)
    ensures Inv(Next(h, step))
  {
  }

  lemma StepKeepsInv(h: Hub, step: Step)
    requires Inv(h) && Enabled(h, step)
    ensures Inv(Next(h, step))
  {
    match step
    case Upgrade(agent) => UpgradeKeepsInv(h, agent);
    case RegisterSend(id) => RegisterKeepsInv(h, id);
    case RunRegister => RunRegisterKeepsInv(h);
    case RunRemove => RemoveIsEmptyWhileLive(h); assert false;
    case DrainOne(id) => DrainKeepsInv(h, id);
    case StartPublish(agent, b) => StartPublishKeepsInv(h, agent, b);
    case SendNext(agent) => SendKeepsInv(h, agent);
    case EndPublish(agent) => EndPublishKeepsInv(h, agent);
    case PumpTake(id) => PumpTakeKeepsInv(h, id);
    case PumpEnd(_) => PumpStopKeepsInv(h, step);
    case PumpLeave(_) => PumpStopKeepsInv(h, step);
    case _ => PhaseKeepsInv(h, step);
  }

  lemma {:induction false} RunsKeepInv(h: Hub, steps: seq<Step>)
    requires Inv(h) && Legal(h, steps)
    ensures Inv(Exec(h, steps))
    decreases |steps|
  {
    if steps != [] {
      StepKeepsInv(h, steps[0]);
      RunsKeepInv(Next(h, steps[0]), steps[1..]);
    }
  }

  lemma OrderlySendIsCalm(h: Hub, agent: string)
    requires NoClash(h) && PublishersOk(h.all, h.publishing) && Enabled(h, SendNext(agent))
    ensures NoClash(Send(h, agent)) && Send(h, agent).panic.Calm?
  {
    SendKeepsPublishers(h, agent);
    var p, t := h.publishing[agent], Send(h, agent);
    assert p.rest[0] in p.rest;
    forall a | a in t.publishing
      ensures t.phase.Draining? ==> !Meets(t.publishing[a].rest, t.clients)
      ensures forall i :: i in t.publishing[a].rest && i < |t.all| ==> !t.all[i].chan.closed
    {
      assert forall i :: i in t.publishing[a].rest ==> i in h.publishing[a].rest;
    }
  }

  lemma OrderlyDrainIsCalm(h: Hub, id: nat)
    requires Inv(h) && NoClash(h) && Enabled(h, DrainOne(id))
    ensures NoClash(Next(h, DrainOne(id))) && Next(h, DrainOne(id)).panic.Calm?
  {
    DrainKeepsInv(h, id);
    var t := Next(h, DrainOne(id));
    forall a | a in t.publishing
      ensures !Meets(t.publishing[a].rest, t.clients)
      ensures forall i :: i in t.publishing[a].rest && i < |t.all| ==> !t.all[i].chan.closed
    {
      assert !Meets(h.publishing[a].rest, h.clients);
    }
  }

  lemma OrderlyPublishIsCalm(h: Hub, agent: string, b: Batch)
    requires ListsOk(h.all, h.subs) && NoClash(h)
    requires Enabled(h, StartPublish(agent, b)) && Orderly(h, StartPublish(agent, b))
    ensures NoClash(Next(h, StartPublish(agent, b)))
  {
    ListedAreOpen(h.all, h.subs, agent);
  }

  lemma ListedAreOpen(all: seq<Sub>, subs: map<string, seq<nat>>, agent: string)
    requires ListsOk(all, subs)
    ensures forall i :: i in List(subs, agent) ==> OpenFor(all, agent, i)
  {
    forall i | i in List(subs, agent) ensures OpenFor(all, agent, i) {
      assert OnList(subs, agent, i);
    }
  }

  /** Upgrades, hand-overs and pumps concern no publisher. */
  lemma OtherStepsAreCalm(h: Hub, t: Hub)
    requires Inv(h) && NoClash(h)
    requires forall a :: a in t.publishing ==> a in h.publishing && t.publishing[a] == h.publishing[a]
    requires |h.all| <= |t.all| && forall i :: 0 <= i < |h.all| ==> t.all[i].chan.closed == h.all[i].chan.closed
    requires t.phase.Draining? ==> t.clients == h.clients && forall a :: a in t.publishing ==> !Meets(t.publishing[a].rest, t.clients)
    ensures NoClash(t)
  {
  }

  lemma OrderlyStepIsCalm(h: Hub, step: Step)
    requires Inv(h) && NoClash(h) && Enabled(h, step) && Orderly(h, step)
    ensures NoClash(Next(h, step)) && Next(h, step).panic.Calm?
  {
    match step
    case RunRemove => RemoveIsEmptyWhileLive(h); assert false;
    case DrainOne(id) => OrderlyDrainIsCalm(h, id);
    case SendNext(agent) => OrderlySendIsCalm(h, agent);
    case StartPublish(agent, b) => OrderlyPublishIsCalm(h, agent, b);
    case _ => OtherStepsAreCalm(h, Next(h, step));
  }

  lemma {:induction false} OrderlyRunsStayCalm(h: Hub, steps: seq<Step>)
    requires Inv(h) && NoClash(h) && h.panic.Calm? && Legal(h, steps) && OrderlyRun(h, steps)
    ensures Exec(h, steps).panic.Calm? && NoClash(Exec(h, steps))
    decreases |steps|
  {
    if steps != [] {
      StepKeepsInv(h, steps[0]);
      OrderlyStepIsCalm(h, steps[0]);
      OrderlyRunsStayCalm(Next(h, steps[0]), steps[1..]);
    }
  }

  // ----- Theorems over whole runs -----

  /** In every run, orderly or not: channels are closed only once the loop has seen the
      shutdown, the remove queue is empty as long as the loop is live, and, until then, every
      subscriber ever made is still on its agent's list (clients that went away included). */
  lemma ClosedOnlyAfterShutdown(steps: seq<Step>)
    requires Legal(INIT, steps)
    ensures
      var h := Exec(INIT, steps);
      h.phase.Live? ==>
        && h.remove == []
        && forall i :: 0 <= i < |h.all| ==> !h.all[i].chan.closed && OnList(h.subs, h.all[i].agent, i)
  {
    RunsKeepInv(INIT, steps);
    var h := Exec(INIT, steps);
    if h.phase.Live? { RemoveIsEmptyWhileLive(h); }
  }

  /** In every orderly run nothing panics: no channel is closed twice and nothing is sent on
      a closed channel. Publishing may resume once the loop has stopped. */
  lemma OrderlyRunsNeverPanic(steps: seq<Step>)
    requires Legal(INIT, steps) && OrderlyRun(INIT, steps)
    ensures Exec(INIT, steps).panic.Calm?
  {
    OrderlyRunsStayCalm(INIT, steps);
  }

  /** Disorder always can panic: after any enabled step that breaks the order, some
      continuation ends in a panic. Together with `OrderlyRunsNeverPanic`, the order is
      exactly what safety needs. */
  lemma DisorderCanPanic(h: Hub, step: Step) returns (steps: seq<Step>)
    requires Inv(h) && Enabled(h, step) && !Orderly(h, step)
    ensures Legal(Next(h, step), steps) && !Exec(Next(h, step), steps).panic.Calm?
  {
    var t := Next(h, step);
    StepKeepsInv(h, step);
    match step
    case CloseHub => steps := [];
    case RunShutdown =>
      var a :| a in h.publishing && Meets(h.publishing[a].rest, h.clients);
      var i :| i in h.publishing[a].rest && i in h.clients;
      steps := DrainThenSend(t, a, i);
    case StartPublish(agent, b) =>
      var i :| i in List(h.subs, agent) && i in h.clients;
      steps := DrainThenSend(t, agent, i);
  }

  lemma DrainThenSend(h: Hub, agent: string, i: nat) returns (steps: seq<Step>)
    requires Inv(h) && h.panic.Calm? && h.phase.Draining?
    requires agent in h.publishing && i in h.publishing[agent].rest && i in h.clients
    ensures Legal(h, steps) && !Exec(h, steps).panic.Calm?
  {
    DrainKeepsInv(h, i);
    var rest := SendUntilPanic(Next(h, DrainOne(i)), agent, i);
    steps := [DrainOne(i)] + rest;
    assert steps[1..] == rest;
  }

  lemma SendUntilPanic(h: Hub, agent: string, i: nat) returns (steps: seq<Step>)
    requires PublishersOk(h.all, h.publishing) && h.panic.Calm?
    requires agent in h.publishing && i in h.publishing[agent].rest && i < |h.all| && h.all[i].chan.closed
    ensures Legal(h, steps) && !Exec(h, steps).panic.Calm?
    decreases |h.publishing[agent].rest|
  {
    SendKeepsPublishers(h, agent);
    var t := Next(h, SendNext(agent));
    var rest := [];
    if t.panic.Calm? {
      assert i in h.publishing[agent].rest[1..];
      rest := SendUntilPanic(t, agent, i);
    }
    steps := [SendNext(agent)] + rest;
    assert steps[1..] == rest;
  }

  /** Such panics are reachable: a Publish that was overtaken by the drain sends on a closed
      channel, and a second Close closes a closed one. */
  lemma PanicsAreReachable(agent: string, b: Batch)
    ensures
      var steps := [Upgrade(agent)] + ([RegisterSend(0)] + ([RunRegister] + OvertakenPublish(agent, b)));
      Legal(INIT, steps) && Exec(INIT, steps).panic == SendOnClosed
    ensures Legal(INIT, [CloseHub] + [CloseHub]) && Exec(INIT, [CloseHub] + [CloseHub]).panic == CloseOfClosed
  {
    var h1 := Next(INIT, Upgrade(agent));
    var h2 := Next(h1, RegisterSend(0));
    var tail := OvertakenPublish(agent, b);
    OvertakenPublishPanics(Next(h2, RunRegister), agent, b);
    OneStep(h2, RunRegister, tail);
    OneStep(h1, RegisterSend(0), [RunRegister] + tail);
    OneStep(INIT, Upgrade(agent), [RegisterSend(0)] + ([RunRegister] + tail));
    OneStep(INIT, CloseHub, [CloseHub]);
  }

  function OvertakenPublish(agent: string, b: Batch): seq<Step> {
    [StartPublish(agent, b)] + ([CloseHub] + ([RunShutdown] + ([DrainOne(0)] + [SendNext(agent)])))
  }

  lemma OvertakenPublishPanics(h: Hub, agent: string, b: Batch)
    requires h.panic.Calm? && h.phase.Live? && !h.closing && agent !in h.publishing
    requires List(h.subs, agent) == [0] && |h.all| == 1 && !h.all[0].chan.closed && 0 in h.clients
    ensures Legal(h, OvertakenPublish(agent, b)) && Exec(h, OvertakenPublish(agent, b)).panic == SendOnClosed
  {
    var h1 := Next(h, StartPublish(agent, b));
    var h2 := Next(h1, CloseHub);
    var tail := [DrainOne(0)] + [SendNext(agent)];
    DrainOvertakes(Next(h2, RunShutdown), agent);
    OneStep(h2, RunShutdown, tail);
    OneStep(h1, CloseHub, [RunShutdown] + tail);
    OneStep(h, StartPublish(agent, b), [CloseHub] + ([RunShutdown] + tail));
  }

  lemma DrainOvertakes(h: Hub, agent: string)
    requires h.panic.Calm? && h.phase.Draining? && 0 in h.clients && |h.all| == 1 && !h.all[0].chan.closed
    requires agent in h.publishing && h.publishing[agent].rest == [0]
    ensures
      var steps := [DrainOne(0)] + [SendNext(agent)];
      Legal(h, steps) && Exec(h, steps).panic == SendOnClosed
  {
    var t := Next(h, DrainOne(0));
    assert t.panic.Calm? && t.publishing == h.publishing && t.all[0].chan.closed;
    OneStep(t, SendNext(agent), []);
    assert [SendNext(agent)] + [] == [SendNext(agent)];
    OneStep(h, DrainOne(0), [SendNext(agent)]);
  }

  lemma OneStep(h: Hub, step: Step, rest: seq<Step>)
    requires Enabled(h, step) && Legal(Next(h, step), rest)
    ensures Legal(h, [step] + rest) && Exec(h, [step] + rest) == Exec(Next(h, step), rest)
  {
    assert ([step] + rest)[1..] == rest;
  }

  /** Per-subscriber conservation, in every run: what was published for the agent since the
      subscription is what was offered (up to a Publish still under way); consumed plus
      queued is an in-order selection of it; the queue never exceeds 16; and a batch is
      missing exactly if the queue held 16 when it was offered: sixteen batches kept before
      it had not been taken yet. */
  lemma SubscribersConserve(steps: seq<Step>, id: nat)
    requires Legal(INIT, steps) && id < |Exec(INIT, steps).all|
    ensures
      var h := Exec(INIT, steps);
      var s := h.all[id];
      && s.chan.Valid() && |s.chan.queue| <= 16
      && s.since <= |History(h.published, s.agent)|
      && s.chan.offered <= History(h.published, s.agent)[s.since..]
      && (!s.chan.closed && s.agent !in h.publishing ==> s.chan.offered == History(h.published, s.agent)[s.since..])
      && s.chan.Consumed() + s.chan.queue == Pick(s.chan.offered, s.chan.kept)
      && StrictlyIncreasing(s.chan.kept)
      && forall d: nat :: d < |s.chan.offered| ==> (d !in s.chan.kept <==> LengthAt(s.chan.kept, s.chan.takenAt, d) == 16)
  {
    RunsKeepInv(INIT, steps);
    var h := Exec(INIT, steps);
    assert SubOk(h.all[id], id, h.published, h.publishing);
    ChannelConserves(h.all[id].chan);
  }
}
