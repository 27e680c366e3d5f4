/**
 `EventBus`: per-agent subscriber lists and bounded channels that drop when full. A channel
 is specified with its history, so that everything offered to it splits, in order, into
 what was taken, what is queued and what was dropped.
 */
module EventBuses {
  import opened Telemetry

  const CHANNEL_CAPACITY := 16

  /** How many of the given increasing positions are below `d`. */
  ghost function CountBelow(at: seq<nat>, d: nat): (n: nat)
    ensures n <= |at|
  {
    if at == [] then 0
    else if at[|at| - 1] < d then |at|
    else CountBelow(at[..|at| - 1], d)
  }

  /** The length of the queue when position `d` was offered: kept before it, not yet taken. */
  ghost function LengthAt(kept: seq<nat>, takenAt: seq<nat>, d: nat): int
    requires d < |takenAt|
  {
    CountBelow(kept, d) - takenAt[d]
  }

  /** A position was skipped exactly if the queue held 16 at that moment. */
  ghost predicate DropsOk(kept: seq<nat>, takenAt: seq<nat>) {
    forall d: nat :: d < |takenAt| ==>
      && 0 <= LengthAt(kept, takenAt, d) <= CHANNEL_CAPACITY
      && (d in kept <==> LengthAt(kept, takenAt, d) < CHANNEL_CAPACITY)
  }

  /** A subscriber's channel. `offered` is everything a Publish tried to send, `kept` the
      positions in it that fitted, `taken` how many of those were received, and `takenAt` how
      many had been received when each position was offered. */
  datatype Chan = Chan(
    queue: seq<Batch>, closed: bool, offered: seq<Batch>, kept: seq<nat>, taken: nat, takenAt: seq<nat>)
  {

    /** The non-blocking send of `Publish`. */
    function Offer(b: Batch): Chan {
      if |queue| < CHANNEL_CAPACITY
      then this.(queue := queue + [b], offered := offered + [b], kept := kept + [|offered|], takenAt := takenAt + [taken])
      else this.(offered := offered + [b], takenAt := takenAt + [taken])
    }

    function Take(): Chan
      requires queue != []
    {
      this.(queue := queue[1..], taken := taken + 1)
    }

    /** Consumed and queued items are, in order, the kept ones; the queue is bounded; and
        nothing was dropped except by a full queue. */
    ghost predicate Valid() {
      && StrictlyIncreasing(kept)
      && (forall i :: 0 <= i < |kept| ==> kept[i] < |offered|)
      && taken <= |kept|
      && queue == Pick(offered, kept[taken..])
      && |queue| <= CHANNEL_CAPACITY
      && |takenAt| == |offered| && DropsOk(kept, takenAt)
    }

    /** What the receiver got so far. */
    ghost function Consumed(): seq<Batch>
      requires Valid()
    {
      Pick(offered, kept[..taken])
    }
  }

  const EMPTY_CHAN := Chan([], false, [], [], 0, [])

  lemma OfferKeepsValid(c: Chan, b: Batch)
    requires c.Valid()
    ensures c.Offer(b).Valid()
    ensures
      var d := c.Offer(b);
      && d.offered == c.offered + [b] && d.taken == c.taken && d.closed == c.closed
      && (if |c.queue| == 16 then d.queue == c.queue && d.kept == c.kept
          else |c.queue| < 16 && d.queue == c.queue + [b] && d.kept == c.kept + [|c.offered|])
  {
    var d := c.Offer(b);
    assert |c.queue| == |c.kept| - c.taken;
    if |c.queue| < CHANNEL_CAPACITY {
      assert d.kept[d.taken..] == c.kept[c.taken..] + [|c.offered|];
    }
    assert d.queue == Pick(d.offered, d.kept[d.taken..]);
    OfferKeepsDrops(c.kept, c.takenAt, c.taken);
  }

  /** An offer is kept exactly if the queue has room, and leaves earlier lengths alone. */
  lemma OfferKeepsDrops(kept: seq<nat>, takenAt: seq<nat>, taken: nat)
    requires DropsOk(kept, takenAt) && taken <= |kept| <= taken + CHANNEL_CAPACITY
    requires forall i :: 0 <= i < |kept| ==> kept[i] < |takenAt|
    ensures DropsOk(if |kept| < taken + CHANNEL_CAPACITY then kept + [|takenAt|] else kept, takenAt + [taken])
  {
    var n, later := |takenAt|, takenAt + [taken];
    var now := if |kept| < taken + CHANNEL_CAPACITY then kept + [n] else kept;
    assert CountBelow(kept, n) == |kept|;
    forall d: nat | d < |later|
      ensures 0 <= LengthAt(now, later, d) <= CHANNEL_CAPACITY
      ensures d in now <==> LengthAt(now, later, d) < CHANNEL_CAPACITY
    {
      if now != kept { assert now[..|kept|] == kept; }
      if d < n { assert LengthAt(now, later, d) == LengthAt(kept, takenAt, d); }
    }
  }

  lemma TakeKeepsValid(c: Chan)
    requires c.Valid() && c.queue != []
    ensures c.Take().Valid() && c.Take().queue == c.queue[1..] && c.Take().kept == c.kept && c.Take().offered == c.offered
    ensures c.Take().Consumed() == c.Consumed() + [c.queue[0]]
  {
    assert c.kept[c.taken..] == [c.kept[c.taken]] + c.kept[c.taken + 1..];
    assert c.kept[..c.taken + 1] == c.kept[..c.taken] + [c.kept[c.taken]];
  }

  /** Conservation: consumed, then queued, is what was kept, in order; the rest was dropped,
      each at a moment when the queue held 16; so the first 16 offers are never dropped. */
  lemma ChannelConserves(c: Chan)
    requires c.Valid()
    ensures c.Consumed() + c.queue == Pick(c.offered, c.kept)
    ensures forall d: nat :: d < |c.offered| ==> (d !in c.kept <==> LengthAt(c.kept, c.takenAt, d) == 16)
    ensures forall d: nat :: d < |c.offered| && d < 16 ==> d in c.kept
  {
    assert c.kept == c.kept[..c.taken] + c.kept[c.taken..];
    forall d: nat | d < |c.offered| && d !in c.kept ensures d >= CHANNEL_CAPACITY {
      assert LengthAt(c.kept, c.takenAt, d) == CHANNEL_CAPACITY;
      CountBelowIsSmall(c.kept, d);
    }
  }

  lemma {:induction false} CountBelowIsSmall(at: seq<nat>, d: nat)
    requires StrictlyIncreasing(at)
    ensures CountBelow(at, d) <= d
  {
    if at != [] {
      if at[|at| - 1] < d {
        IncreasingIsAtLeastItsIndex(at, |at| - 1);
      } else {
        CountBelowIsSmall(at[..|at| - 1], d);
      }
    }
  }

  lemma {:induction false} IncreasingIsAtLeastItsIndex(s: seq<nat>, i: nat)
    requires StrictlyIncreasing(s) && i < |s|
    ensures i <= s[i]
  {
    if i > 0 { IncreasingIsAtLeastItsIndex(s, i - 1); }
  }

  /** The list without the first occurrence of `x`. */
  function RemoveFirst<T(==)>(s: seq<T>, x: T): (r: seq<T>)
    ensures x !in s ==> r == s
  {
    if s == [] then [] else if s[0] == x then s[1..] else [s[0]] + RemoveFirst(s[1..], x)
  }

  lemma {:induction false} RemoveFirstAt<T>(s: seq<T>, i: nat)
    requires i < |s| && s[i] !in s[..i]
    ensures RemoveFirst(s, s[i]) == s[..i] + s[i + 1..]
  {
    if i > 0 {
      assert s[..i][0] == s[0];
      assert s[1..][..i - 1] == s[..i][1..];
      assert s[1..][i - 1] == s[i];
      RemoveFirstAt(s[1..], i - 1);
      assert s[1..][i..] == s[i + 1..];
    }
  }

  // ----- The bus in its own form -----

  class Subscriber {
    const agentID: string
    var ch: seq<Batch>
    var closed: bool
    ghost var offered: seq<Batch>
    ghost var kept: seq<nat>
    ghost var taken: nat
    ghost var takenAt: seq<nat>

    ghost function View(): Chan
      reads this
    {
      Chan(ch, closed, offered, kept, taken, takenAt)
    }

    constructor (agent: string)
      ensures agentID == agent && View() == EMPTY_CHAN
    {
      agentID := agent;
      ch, closed := [], false;
      offered, kept, taken, takenAt := [], [], 0, [];
    }

    /** `select { case ch <- metric: default: }`; sending on a closed channel panics. */
    method TrySend(b: Batch)
      requires !closed
      modifies this
      ensures View() == old(View()).Offer(b)
    {
      if |ch| < CHANNEL_CAPACITY {
        ch := ch + [b];
        kept := kept + [|offered|];
      }
      offered := offered + [b];
      takenAt := takenAt + [taken];
    }

    /** A receive that finds something. */
    method Receive() returns (b: Batch)
      requires ch != []
      modifies this
      ensures b == old(ch)[0] && View() == old(View()).Take()
    {
      b := ch[0];
      ch := ch[1..];
      taken := taken + 1;
    }
  }

  class EventBus {
    var subs: map<string, seq<Subscriber>>

    /** A missing map entry reads as the empty list. */
    function Listed(agent: string): seq<Subscriber>
      reads this
    {
      if agent in subs then subs[agent] else []
    }

    constructor ()
      ensures subs == map[]
    {
      subs := map[];
    }

    method Subscribe(agent: string) returns (sub: Subscriber)
      modifies this
      ensures fresh(sub) && sub.agentID == agent && sub.View() == EMPTY_CHAN
      ensures subs == old(subs)[agent := old(Listed(agent)) + [sub]]
    {
      sub := new Subscriber(agent);
      subs := subs[agent := Listed(agent) + [sub]];
    }

    /** Every listed subscriber is offered the batch once; nobody else is touched. */
    method Publish(agent: string, metric: Batch)
      requires Distinct(Listed(agent)) && forall s :: s in Listed(agent) ==> !s.closed
      modifies Listed(agent)
      ensures forall s :: s in Listed(agent) ==> s.View() == old(s.View()).Offer(metric)
    {
      var list := Listed(agent);
      for i := 0 to |list|
        invariant forall j :: 0 <= j < i ==> list[j].View() == old(list[j].View()).Offer(metric)
        invariant forall j :: i <= j < |list| ==> list[j].View() == old(list[j].View())
      {
        list[i].TrySend(metric);
      }
    }

    /** Takes the subscriber off its agent's list and closes its channel; closing a closed
        channel panics. */
    method Unsubscribe(sub: Subscriber)
      requires !sub.closed
      modifies this, sub`closed
      ensures sub.View() == old(sub.View()).(closed := true)
      ensures subs == if sub in old(Listed(sub.agentID))
                      then old(subs)[sub.agentID := RemoveFirst(old(Listed(sub.agentID)), sub)] else old(subs)
    {
      var list := Listed(sub.agentID);
      var i := 0;
      while i < |list|
        invariant 0 <= i <= |list| && sub !in list[..i]
        invariant subs == old(subs) && !sub.closed
      {
        if list[i] == sub {
          RemoveFirstAt(list, i);
          subs := subs[sub.agentID := list[..i] + list[i + 1..]];
          break;
        }
        i := i + 1;
      }
      sub.closed := true;
    }
  }
}
