/**
 The dashboard's stream hook: one effect instance with its socket, its reconnect timer, its
 attempt counter and its disposal, against every order of browser events.
 */
module Reconnect {
  import opened Telemetry

  const BACKOFF_MIN_MS := 1000
  const BACKOFF_MAX_MS := 30000

  datatype Status = Idle | Connecting | Open | Reconnecting

  /** The browser's view of a WebSocket; `wasOpen` says whether its open event was delivered. */
  datatype Socket = Pending | Opened | Closing(wasOpen: bool) | Closed

  datatype Effect = Effect(
    socket: Option<nat>,       // the closure's `socket`, by number
    timer: Option<nat>,        // the delay of the timeout that is still due
    attempt: nat,
    disposed: bool,
    status: Status,            // as published to the metrics store
    sockets: seq<Socket>,      // every socket this instance created
    deaf: set<nat>,            // sockets whose handlers were taken off
    failures: nat)             // history: closes since the last open

  datatype Event =
    | OpenEvent(id: nat)
    | ErrorEvent(id: nat)
    | PeerCloses(id: nat)      // the closing handshake starts: no handler runs, the socket is CLOSING
    | CloseEvent(id: nat)
    | TimerEvent
    | Dispose

  function Pow2(n: nat): nat {
    if n == 0 then 1 else 2 * Pow2(n - 1)
  }

  function Min(a: nat, b: nat): nat {
    if a <= b then a else b
  }

  function Connect(e: Effect): Effect {
    if e.disposed then e
    else e.(status := if e.attempt == 0 then Connecting else Reconnecting,
            socket := Some(|e.sockets|), sockets := e.sockets + [Pending])
  }

  function ScheduleReconnect(e: Effect): Effect {
    if e.disposed then e
    else e.(status := Reconnecting, timer := Some(Min(BACKOFF_MIN_MS * Pow2(e.attempt), BACKOFF_MAX_MS)),
            attempt := e.attempt + 1)
  }

  function OnOpen(e: Effect): Effect {
    if e.disposed then e else e.(attempt := 0, status := Open, failures := 0)
  }

  function OnClose(e: Effect): Effect {
    if e.disposed then e else ScheduleReconnect(e.(socket := None, failures := e.failures + 1))
  }

  /** `ws.close()` on a socket that is not closed yet. */
  function CloseSocket(s: Socket): Socket {
    match s
    case Pending => Closing(false)
    case Opened => Closing(true)
    case Closing(_) => s
    case Closed => s
  }

  function Cleanup(e: Effect): Effect {
    var quiet := e.(disposed := true, timer := None, status := Idle);
    match e.socket
    case None => quiet
    case Some(id) =>
      if id < |e.sockets|
      then quiet.(deaf := e.deaf + {id}, sockets := e.sockets[id := CloseSocket(e.sockets[id])])
      else quiet
  }

  function Start(): Effect {
    Connect(Effect(None, None, 0, false, Idle, [], {}, 0))
  }

  /** Which events the browser can deliver: a socket opens once, closes once, and is silent
      after that; a timeout fires only while it is due; React cleans up once. */
  predicate Possible(e: Effect, event: Event) {
    match event
    case OpenEvent(id) => id < |e.sockets| && e.sockets[id].Pending?
    case ErrorEvent(id) => id < |e.sockets| && !e.sockets[id].Closed?
    case PeerCloses(id) => id < |e.sockets| && e.sockets[id].Opened?
    case CloseEvent(id) => id < |e.sockets| && !e.sockets[id].Closed?
    case TimerEvent => e.timer.Some?
    case Dispose => !e.disposed
  }

  function Next(e: Effect, event: Event): Effect
    requires Possible(e, event)
  {
    match event
    case OpenEvent(id) =>
      var after := e.(sockets := e.sockets[id := Opened]);
      if id in e.deaf then after else OnOpen(after)
    case ErrorEvent(id) =>
      if id in e.deaf then e else e.(sockets := e.sockets[id := CloseSocket(e.sockets[id])])
    case PeerCloses(id) => e.(sockets := e.sockets[id := CloseSocket(e.sockets[id])])
    case CloseEvent(id) =>
      var after := e.(sockets := e.sockets[id := Closed]);
      if id in e.deaf then after else OnClose(after)
    case TimerEvent => Connect(e.(timer := None))
    case Dispose => Cleanup(e)
  }

  ghost predicate Legal(e: Effect, events: seq<Event>)
    decreases |events|
  {
    events != [] ==> Possible(e, events[0]) && Legal(Next(e, events[0]), events[1..])
  }

  ghost function Exec(e: Effect, events: seq<Event>): Effect
    requires Legal(e, events)
    decreases |events|
  {
    if events == [] then e else Exec(Next(e, events[0]), events[1..])
  }

  /** The wait before the reconnect that follows the k-th failure in a row. */
  function Backoff(k: nat): nat
    requires k >= 1
  {
    Min(BACKOFF_MIN_MS * Pow2(k - 1), BACKOFF_MAX_MS)
  }

  /** The current socket has opened and its close event is still to come. */
  predicate Connected(e: Effect) {
    && e.socket.Some? && e.socket.value < |e.sockets|
    && (e.sockets[e.socket.value].Opened? || e.sockets[e.socket.value] == Closing(true))
  }

  ghost predicate LiveInv(e: Effect) {
    && (e.socket.Some? <==> e.timer.None?)
    && (e.socket.Some? ==> e.socket.value < |e.sockets| && !e.sockets[e.socket.value].Closed?)
    && (forall i :: 0 <= i < |e.sockets| && e.socket != Some(i) ==> e.sockets[i].Closed?)
    && e.deaf == {}
    && e.attempt == e.failures
    && (e.timer.Some? ==> e.failures >= 1 && e.timer.value == Backoff(e.failures))
    && (e.status.Open? <==> Connected(e))
    && (e.status.Connecting? <==> !Connected(e) && e.failures == 0)
    && !e.status.Idle?
  }

  ghost predicate DisposedInv(e: Effect) {
    && e.timer.None? && e.status.Idle?
    && forall i :: 0 <= i < |e.sockets| ==> e.sockets[i].Closed? || (e.sockets[i].Closing? && i in e.deaf)
  }

  ghost predicate Inv(e: Effect) {
    if e.disposed then DisposedInv(e) else LiveInv(e)
  }

  lemma StepKeepsInv(e: Effect, event: Event)
    requires Inv(e) && Possible(e, event)
    ensures Inv(Next(e, event))
  {
  }

  lemma {:induction false} RunsKeepInv(e: Effect, events: seq<Event>)
    requires Inv(e) && Legal(e, events)
    ensures Inv(Exec(e, events))
    decreases |events|
  {
    if events != [] {
      StepKeepsInv(e, events[0]);
      RunsKeepInv(Next(e, events[0]), events[1..]);
    }
  }

  /** A run is a shorter run and one more event. */
  lemma {:induction false} LastEvent(e: Effect, events: seq<Event>)
    requires events != [] && Legal(e, events)
    ensures
      var before, last := events[..|events| - 1], events[|events| - 1];
      && Legal(e, before) && Possible(Exec(e, before), last)
      && Exec(e, events) == Next(Exec(e, before), last)
    decreases |events|
  {
    if |events| > 1 {
      LastEvent(Next(e, events[0]), events[1..]);
      assert events[1..][..|events| - 2] == events[..|events| - 1][1..];
    } else {
      assert events[1..] == [];
    }
  }

  /** How many close events there were since the last open event. */
  ghost function FailuresInARow(events: seq<Event>): nat {
    if events == [] then 0
    else
      match events[|events| - 1]
      case OpenEvent(_) => 0
      case CloseEvent(_) => FailuresInARow(events[..|events| - 1]) + 1
      case _ => FailuresInARow(events[..|events| - 1])
  }

  lemma {:induction false} FailuresAreCounted(events: seq<Event>)
    requires Legal(Start(), events) && !Exec(Start(), events).disposed
    ensures Exec(Start(), events).failures == FailuresInARow(events)
  {
    if events != [] {
      LastEvent(Start(), events);
      FailuresAreCounted(events[..|events| - 1]);
      RunsKeepInv(Start(), events[..|events| - 1]);
    }
  }

  /** Until disposal, between any two events: either one socket is live or a reconnect is due,
      never both and never neither; all other sockets are closed; the wait after the k-th
      failure in a row is min(1000 * 2^(k-1), 30000); and the status is "open" exactly from
      the current socket's open event to its close event, otherwise "connecting" before the
      first failure in a row and "reconnecting" after it. */
  lemma OneSocketOrOneTimer(events: seq<Event>)
    requires Legal(Start(), events) && !Exec(Start(), events).disposed
    ensures
      var e := Exec(Start(), events);
      && (e.socket.Some? <==> e.timer.None?)
      && (forall i :: 0 <= i < |e.sockets| ==> (!e.sockets[i].Closed? <==> e.socket == Some(i)))
      && (e.timer.Some? ==>
            var k := FailuresInARow(events);
            k >= 1 && e.timer.value == if k >= 6 then 30000 else 1000 * Pow2(k - 1))
      && e.status == (if Connected(e) then Open else if FailuresInARow(events) == 0 then Connecting else Reconnecting)
  {
    RunsKeepInv(Start(), events);
    var e := Exec(Start(), events);
    FailuresAreCounted(events);
    if e.timer.Some? { Pow2Bounds(e.failures - 1); }
  }

  // ----- When "open" means open -----

  /** The state of a socket as its events tell it; `dropped` says that the effect was disposed
      of while this was its current socket. */
  ghost predicate Told(s: Socket, events: seq<Event>, id: nat, dropped: bool) {
    var wasOpen := OpenEvent(id) in events;
    var closing := ErrorEvent(id) in events || PeerCloses(id) in events || dropped;
    s == if CloseEvent(id) in events then Closed
         else if closing then Closing(wasOpen)
         else if wasOpen then Opened
         else Pending
  }

  ghost predicate Unheard(events: seq<Event>, id: nat) {
    && OpenEvent(id) !in events && ErrorEvent(id) !in events
    && PeerCloses(id) !in events && CloseEvent(id) !in events
  }

  ghost predicate ToldSo(e: Effect, events: seq<Event>, id: nat) {
    if id < |e.sockets| then Told(e.sockets[id], events, id, e.disposed && e.socket == Some(id)) else Unheard(events, id)
  }

  /** Every socket is in the state its events tell, in every run: disposal counts as a closing
      event of the socket that was current, and `socket` keeps naming that one. */
  lemma {:induction false} SocketsAreAsTold(events: seq<Event>, id: nat)
    requires Legal(Start(), events)
    ensures ToldSo(Exec(Start(), events), events, id)
  {
    if events != [] {
      LastEvent(Start(), events);
      SocketsAreAsTold(events[..|events| - 1], id);
      RunsKeepInv(Start(), events[..|events| - 1]);
      EventIsTold(Exec(Start(), events[..|events| - 1]), events[..|events| - 1], events[|events| - 1], id);
      assert events[..|events| - 1] + [events[|events| - 1]] == events;
    }
  }

  lemma {:induction false} DisposedExactly(e: Effect, events: seq<Event>)
    requires Legal(e, events)
    ensures Exec(e, events).disposed <==> e.disposed || Dispose in events
    decreases |events|
  {
    if events != [] {
      DisposedExactly(Next(e, events[0]), events[1..]);
      assert events == [events[0]] + events[1..];
    }
  }

  lemma EventIsTold(e: Effect, events: seq<Event>, last: Event, id: nat)
    requires Inv(e) && Possible(e, last) && ToldSo(e, events, id)
    ensures ToldSo(Next(e, last), events + [last], id)
  {
  }

  /** "open" does not imply that the socket is still open; this is exactly when it does. In
      every run until disposal, with a current socket: the status is "open" if and only if
      the socket's open event was delivered, and then the socket is open if and only if
      neither an error nor a closing handshake has reached it since. (What reaches a socket
      before its open event keeps it from ever opening.) */
  lemma OpenMeansOpenExactly(events: seq<Event>)
    requires Legal(Start(), events) && !Exec(Start(), events).disposed
    ensures
      var e := Exec(Start(), events);
      && (e.status.Open? <==> e.socket.Some? && OpenEvent(e.socket.value) in events)
      && (e.status.Open? ==>
            && e.socket.value < |e.sockets|
            && (e.sockets[e.socket.value].Opened? <==>
                  ErrorEvent(e.socket.value) !in events && PeerCloses(e.socket.value) !in events))
  {
    RunsKeepInv(Start(), events);
    var e := Exec(Start(), events);
    if e.socket.Some? { SocketsAreAsTold(events, e.socket.value); }
  }

  /** Both ways of failing exist: an error on the open socket, and a server that closes. */
  lemma OpenStatusWhileClosing(last: Event)
    requires last == ErrorEvent(0) || last == PeerCloses(0)
    ensures
      var events := [OpenEvent(0), last];
      Legal(Start(), events) && Exec(Start(), events).status.Open? && Exec(Start(), events).sockets == [Closing(true)]
  {
    var e1 := Next(Start(), OpenEvent(0));
    var e2 := Next(e1, last);
    assert [OpenEvent(0), last][1..] == [last];
    assert [last][1..] == [];
    assert Legal(e2, []) && Legal(e1, [last]);
    assert Exec(e1, [last]) == Exec(e2, []) == e2;
  }

  /** After disposal nothing of this instance happens any more: no event creates a socket, a
      timeout or a status other than "idle"; no socket is or becomes open, and all that is left
      to happen to them is that they close. */
  lemma {:induction false} DisposalIsFinal(e: Effect, events: seq<Event>)
    requires Inv(e) && e.disposed && Legal(e, events)
    ensures
      var f := Exec(e, events);
      && f.disposed && f.status.Idle? && f.timer.None? && f.attempt == e.attempt && f.socket == e.socket
      && |f.sockets| == |e.sockets|
      && forall i :: 0 <= i < |f.sockets| ==>
           && (f.sockets[i].Closing? || f.sockets[i].Closed?)
           && (f.sockets[i] == e.sockets[i] || f.sockets[i].Closed?)
    decreases |events|
  {
    if events != [] {
      StepKeepsInv(e, events[0]);
      DisposalIsFinal(Next(e, events[0]), events[1..]);
    }
  }

  /** Disposal itself, in every run: the timeout is cancelled and the current socket, if any, is
      told to close; every other socket had closed before. */
  lemma DisposalClosesTheSocket(events: seq<Event>)
    requires Legal(Start(), events) && !Exec(Start(), events).disposed
    ensures
      var e := Exec(Start(), events);
      var f := Next(e, Dispose);
      && f.disposed && f.status.Idle? && f.timer.None? && |f.sockets| == |e.sockets|
      && (forall i :: 0 <= i < |e.sockets| && e.socket != Some(i) ==> e.sockets[i].Closed? && f.sockets[i].Closed?)
      && (e.socket.Some? ==>
            && e.socket.value < |f.sockets| && f.sockets[e.socket.value].Closing?
            && e.socket.value in f.deaf)
  {
    RunsKeepInv(Start(), events);
  }

  /** Waits never shrink while failures go on, and from the sixth on they stay at 30 s. */
  lemma {:induction false} BackoffGrowsToItsCap(k: nat)
    requires k >= 1
    ensures BACKOFF_MIN_MS <= Backoff(k) <= Backoff(k + 1) <= BACKOFF_MAX_MS
    ensures Backoff(k) == BACKOFF_MAX_MS <==> k >= 6
  {
    Pow2Bounds(k - 1);
  }

  lemma {:induction false} Pow2Bounds(n: nat)
    ensures n + 1 <= Pow2(n)
    ensures n >= 5 ==> Pow2(n) >= 32
    ensures n < 5 ==> Pow2(n) <= 16
  {
    if n > 0 { Pow2Bounds(n - 1); }
  }

  // ----- The hook in its own form -----

  class MetricStream {
    var socket: Option<nat>
    var reconnectTimer: Option<nat>
    var attempt: nat
    var disposed: bool
    var status: Status
    var sockets: seq<Socket>
    var deaf: set<nat>
    ghost var failures: nat

    ghost function View(): Effect
      reads this
    {
      Effect(socket, reconnectTimer, attempt, disposed, status, sockets, deaf, failures)
    }

    constructor ()
      ensures View() == Start() && Inv(View())
    {
      socket, reconnectTimer, attempt, disposed := None, None, 0, false;
      sockets, deaf, failures := [], {}, 0;
      status := Idle;
      new;
      ConnectNow();
    }

    method ConnectNow()
      modifies this
      ensures View() == Connect(old(View()))
    {
      if disposed { return; }
      status := if attempt == 0 then Connecting else Reconnecting;
      socket := Some(|sockets|);
      sockets := sockets + [Pending];
    }

    method Schedule()
      modifies this
      ensures View() == ScheduleReconnect(old(View()))
    {
      if disposed { return; }
      status := Reconnecting;
      reconnectTimer := Some(Min(BACKOFF_MIN_MS * Pow2(attempt), BACKOFF_MAX_MS));
      attempt := attempt + 1;
    }

    /** Delivers one browser event to whatever handler is installed. */
    method Handle(event: Event)
      requires Inv(View()) && Possible(View(), event)
      modifies this
      ensures Inv(View()) && View() == Next(old(View()), event)
    {
      StepKeepsInv(View(), event);
      match event
      case OpenEvent(id) =>
        sockets := sockets[id := Opened];
        if id !in deaf && !disposed {
          attempt := 0;
          status := Open;
          failures := 0;
        }
      case ErrorEvent(id) =>
        if id !in deaf {
          sockets := sockets[id := CloseSocket(sockets[id])];
        }
      case PeerCloses(id) =>
        sockets := sockets[id := CloseSocket(sockets[id])];
      case CloseEvent(id) =>
        sockets := sockets[id := Closed];
        if id !in deaf && !disposed {
          socket := None;
          failures := failures + 1;
          Schedule();
        }
      case TimerEvent =>
        reconnectTimer := None;
        ConnectNow();
      case Dispose =>
        disposed := true;
        reconnectTimer := None;
        if socket.Some? && socket.value < |sockets| {
          deaf := deaf + {socket.value};
          sockets := sockets[socket.value := CloseSocket(sockets[socket.value])];
        }
        status := Idle;
    }
  }
}
