/**
 The acknowledged metric stream as a step system: the collector, the poll thread and the
 gRPC callbacks of `StreamMetricsReactor`, the wires in both directions, and the server's
 receive/publish/ack loop. One step is one lock region (or one atomic action outside any
 lock); steps of different threads interleave in every order.
 */
module StreamProtocol {
  import opened Telemetry
  import opened SeriesBuffers
  import opened MetricsBuffers
  import opened Identity

  // ----- The reactor's own fields -----

  /** An entry of `pending_snapshots_`. */
  datatype Pending = Pending(key: BufferKey, snapshot: Snapshot)

  datatype Agent = Agent(
    store: Store, pending: map<nat, Pending>, queue: seq<Batch>, writing: bool, nextId: nat)
  {
    /** `Write()` hands the front of the queue to gRPC unless a write is outstanding. */
    predicate StartsWrite() {
      !writing && queue != []
    }

    function Write(): Agent {
      if StartsWrite() then this.(writing := true) else this
    }

    /** The lock region of `OnWriteDone`. */
    function FinishWrite(): Agent
      requires queue != []
    {
      this.(queue := queue[1..], writing := false)
    }

    /** The lock region of `OnReadDone` for a known batch. */
    function Acknowledge(id: nat): Agent
      requires id in pending && pending[id].key in store.series
    {
      var p := pending[id];
      this.(store := store.Ack(p.key, p.snapshot.end), pending := pending - {id})
    }

    /** The pending entry is made, under the batch's fresh id, before the batch is queued. */
    function Register(key: BufferKey, snapshot: Snapshot): Agent {
      this.(pending := pending[nextId := Pending(key, snapshot)], nextId := nextId + 1)
    }

    function Enqueue(batch: Batch): Agent {
      this.(queue := queue + [batch])
    }
  }

  /** Where the poll thread is. */
  datatype Poll =
    | Gate                                                                // about to test `pending`
    | ListKeys                                                            // test passed
    | Snap(todo: seq<BufferKey>)                                          // keys still to snapshot
    | HaveSnapshot(key: BufferKey, snapshot: Snapshot, todo: seq<BufferKey>)  // not yet pending
    | HaveBatch(batch: Batch, todo: seq<BufferKey>)                       // pending, not yet queued
    | Recheck                                                             // all keys done
    | CallWrite                                                           // found something pending

  /** Where the server's loop is. */
  datatype Server = Receiving | Publishing(batch: Batch) | Acking(batch: Batch)

  /** History: the range of its series' log that a batch carries. The `i`-th entry is batch `i`. */
  datatype Sent = Sent(key: BufferKey, start: nat, end: nat, samples: seq<Sample>)

  datatype Sys = Sys(
    agent: Agent,
    poll: Poll,
    due: bool,              // a write was started and its OnWriteDone has not run yet
    popped: nat,            // OnWriteDone calls between their lock region and their Write()
    failed: bool,           // some OnWriteDone(false) has run
    toServer: seq<Batch>,
    server: Server,
    toAgent: seq<nat>,      // ids in BatchAcks on their way back
    published: seq<Batch>,  // everything handed to the event bus
    sent: seq<Sent>,
    acked: nat,             // acks that found their pending entry
    unknownAcks: nat,       // acks that took the "unknown batch_id" branch
    fault: bool)            // a null series was dereferenced or an empty queue was popped

  datatype Step =
    | Collect(metric: Metric)
    | PollThread
    | WriteDone
    | WriteFailed
    | CallbackWrite         // the Write() at the end of OnWriteDone
    | ServerLoop
    | ReadDone

  function Init(cap: nat): Sys {
    Sys(Agent(EmptyStore(cap), map[], [], false, 0), Gate, false, 0, false, [], Receiving, [], [], [], 0, 0, false)
  }

  predicate Enabled(s: Sys, step: Step) {
    match step
    case Collect(_) => true
    case PollThread => true
    case WriteDone => s.due
    case WriteFailed => s.due
    case CallbackWrite => s.popped > 0
    case ServerLoop => s.server != Receiving || s.toServer != []
    case ReadDone => s.toAgent != []
  }

  /** `Write()`, called by the poll thread or by a callback. */
  function DoWrite(s: Sys): Sys {
    if s.agent.StartsWrite()
    then s.(agent := s.agent.Write(), due := true, toServer := s.toServer + [s.agent.queue[0]])
    else s
  }

  function PollNext(s: Sys): Sys {
    match s.poll
    case Gate => if s.agent.pending == map[] then s.(poll := ListKeys) else s
    case ListKeys => s.(poll := Snap(s.agent.store.keys))
    case Snap(todo) =>
      if todo == [] then s.(poll := Recheck)
      else if todo[0] !in s.agent.store.series then s.(fault := true)
      else
        var series := s.agent.store.series[todo[0]];
        // head - tail samples, so nothing unsent exactly if the counters meet
        if |series.log| <= series.tail then s.(poll := Snap(todo[1..]))
        else s.(poll := HaveSnapshot(todo[0], Snapshot(series.log[series.tail..], |series.log|), todo[1..]))
    case HaveSnapshot(key, snapshot, todo) =>
      s.(agent := s.agent.Register(key, snapshot),
         poll := HaveBatch(MakeBatch(s.agent.nextId, key, snapshot.samples), todo),
         sent := s.sent + [Sent(key, Max(snapshot.end - |snapshot.samples|, 0), snapshot.end, snapshot.samples)])
    case HaveBatch(batch, todo) => s.(agent := s.agent.Enqueue(batch), poll := Snap(todo))
    case Recheck => s.(poll := if s.agent.pending == map[] then Gate else CallWrite)
    case CallWrite => DoWrite(s).(poll := Gate)
  }

  function ServerNext(s: Sys): Sys
    requires Enabled(s, ServerLoop)
  {
    match s.server
    case Receiving => s.(server := Publishing(s.toServer[0]), toServer := s.toServer[1..])
    case Publishing(b) => s.(server := Acking(b), published := s.published + [b])
    case Acking(b) => s.(server := Receiving, toAgent := s.toAgent + [b.id])
  }

  function ReadNext(s: Sys): Sys
    requires Enabled(s, ReadDone)
  {
    var id := s.toAgent[0];
    var t := s.(toAgent := s.toAgent[1..]);
    if id !in s.agent.pending then t.(unknownAcks := s.unknownAcks + 1)
    else if s.agent.pending[id].key !in s.agent.store.series then t.(fault := true)
    else t.(agent := s.agent.Acknowledge(id), acked := s.acked + 1)
  }

  function Next(s: Sys, step: Step): Sys
    requires Enabled(s, step)
  {
    match step
    case Collect(m) => s.(agent := s.agent.(store := s.agent.store.AddMetric(m)))
    case PollThread => PollNext(s)
    case WriteDone =>
      if s.agent.queue == [] then s.(fault := true)
      else s.(agent := s.agent.FinishWrite(), due := false, popped := s.popped + 1)
    case WriteFailed => s.(due := false, failed := true)
    case CallbackWrite => DoWrite(s).(popped := s.popped - 1)
    case ServerLoop => ServerNext(s)
    case ReadDone => ReadNext(s)
  }

  /** The steps can be taken one after the other from `s`. */
  ghost predicate Legal(s: Sys, steps: seq<Step>)
    decreases |steps|
  {
    steps != [] ==> Enabled(s, steps[0]) && Legal(Next(s, steps[0]), steps[1..])
  }

  ghost function Exec(s: Sys, steps: seq<Step>): Sys
    requires Legal(s, steps)
    decreases |steps|
  {
    if steps == [] then s else Exec(Next(s, steps[0]), steps[1..])
  }
}
