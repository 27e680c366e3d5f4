/**
 `ConnectReactor`'s writer: a queue with one outstanding write under one lock. What reaches
 the wire is a prefix of what was enqueued, and it starts with the MESSAGE_ID that the
 server's handshake demands.
 */
module ControlWriter {
  import opened Telemetry

  datatype MessageType = UNKNOWN | SEND_DATA | STREAM_DATA | OK | ERROR | PING | PONG | ID

  datatype Message = Message(kind: MessageType, payload: Option<string>)

  /** Only error messages carry the payload. */
  function CreateMessage(kind: MessageType, payload: string): (m: Message)
    ensures m.kind == kind && (m.payload.Some? <==> kind == ERROR) && (kind == ERROR ==> m.payload == Some(payload))
  {
    Message(kind, if kind == ERROR then Some(payload) else None)
  }

  datatype HandshakeError = DeadlineExceeded | RecvFailed | InvalidArgument | AlreadyExists | SendFailed
  datatype Result<+T> = Success(value: T) | Failure(error: HandshakeError)

  /** What the handshake's select sees first. */
  datatype Arrival = TimedOut | RecvError | Received(msg: Message)

  /** The server's handshake: the first message must be an ID; then the id from the metadata,
      or a fresh one that must reach the agent. */
  function Handshake(first: Arrival, metadataId: Option<string>, registered: set<string>, newId: string, sendOk: bool): Result<string> {
    if first.TimedOut? then Failure(DeadlineExceeded)
    else if first.RecvError? then Failure(RecvFailed)
    else if first.msg.kind != ID then Failure(InvalidArgument)
    else if metadataId.None? then Failure(InvalidArgument)
    else if metadataId.value != "" then
      if metadataId.value in registered then Failure(AlreadyExists) else Success(metadataId.value)
    else if sendOk then Success(newId) else Failure(SendFailed)
  }

  datatype Call = Enqueue(msg: Message) | WriteDone | WriteFailed

  /** The writer as values: what waits, whether a write is outstanding, what went out, how many
      writes finished, and whether one failed. */
  datatype Writer = Writer(queue: seq<Message>, writing: bool, wire: seq<Message>, finished: nat, failed: bool) {
    function Write(): Writer {
      if writing || queue == [] then this else this.(writing := true, wire := wire + [queue[0]])
    }

    /** gRPC calls back once for every write it was given. */
    predicate CallbackDue() {
      writing && !failed && queue != []
    }
  }

  const IDLE := Writer([], false, [], 0, false)

  /** Callbacks that are not due do not happen. */
  function Next(w: Writer, call: Call): Writer {
    match call
    case Enqueue(msg) => w.(queue := w.queue + [msg]).Write()
    case WriteDone =>
      if w.CallbackDue() then w.(queue := w.queue[1..], writing := false, finished := w.finished + 1).Write() else w
    case WriteFailed =>
      if w.CallbackDue() then w.(failed := true) else w
  }

  class ConnectReactor {
    var writerQueue: seq<Message>
    var writing: bool
    ghost var wire: seq<Message>      // the arguments of StartWrite, in order
    ghost var finished: nat
    ghost var failed: bool

    ghost function View(): Writer
      reads this
    {
      Writer(writerQueue, writing, wire, finished, failed)
    }

    constructor ()
      ensures View() == Run([])
    {
      writerQueue, writing, wire, finished, failed := [], false, [], 0, false;
      new;
      EnqueueWrite(CreateMessage(ID, ""));
    }

    /** Called with the lock held. */
    method Write()
      modifies this`writing, this`wire
      ensures View() == old(View()).Write()
    {
      if writing || writerQueue == [] { return; }
      writing := true;
      wire := wire + [writerQueue[0]];
    }

    method EnqueueWrite(msg: Message)
      modifies this
      ensures View() == Next(old(View()), Enqueue(msg))
    {
      writerQueue := writerQueue + [msg];
      Write();
    }

    /** After a failed write nothing is popped and `writing` stays set. */
    method OnWriteDone(ok: bool)
      requires View().CallbackDue()
      modifies this
      ensures View() == Next(old(View()), if ok then WriteDone else WriteFailed)
    {
      if !ok {
        failed := true;
        return;
      }
      writerQueue := writerQueue[1..];
      writing := false;
      finished := finished + 1;
      Write();
    }
  }

  // ----- Runs -----

  function Run(calls: seq<Call>): Writer {
    if calls == [] then Next(IDLE, Enqueue(CreateMessage(ID, "")))
    else Next(Run(calls[..|calls| - 1]), calls[|calls| - 1])
  }

  function Enqueued(calls: seq<Call>): seq<Message> {
    if calls == [] then [CreateMessage(ID, "")]
    else
      var last := calls[|calls| - 1];
      Enqueued(calls[..|calls| - 1]) + if last.Enqueue? then [last.msg] else []
  }

  /** What the wire has to do with the enqueue order. */
  ghost predicate Fifo(w: Writer, all: seq<Message>) {
    && w.wire + (if w.queue == [] then [] else w.queue[1..]) == all
    && (w.writing <==> w.queue != [])
    && w.wire != [] && w.wire[0] == CreateMessage(ID, "")
    && (w.writing ==> w.wire[|w.wire| - 1] == w.queue[0])
    && |w.wire| == w.finished + (if w.writing then 1 else 0)
    && (w.failed ==> w.writing)
  }

  lemma EnqueueKeepsFifo(w: Writer, all: seq<Message>, msg: Message)
    requires Fifo(w, all)
    ensures Fifo(Next(w, Enqueue(msg)), all + [msg])
  {
  }

  lemma CallbackKeepsFifo(w: Writer, all: seq<Message>)
    requires Fifo(w, all)
    ensures Fifo(Next(w, WriteDone), all) && Fifo(Next(w, WriteFailed), all)
  {
    if w.CallbackDue() && |w.queue| > 1 {
      assert w.queue[1..] == [w.queue[1]] + w.queue[2..];
    }
  }

  /** The writer refines a FIFO, over every run, failed writes included: the wire is the
      beginning of the enqueue order, it starts with MESSAGE_ID, a write is outstanding (or
      has failed) exactly while something is queued, and the wire is short of the enqueue
      order by exactly the messages behind the one in flight. */
  lemma {:induction false} WriterIsAFifo(calls: seq<Call>)
    ensures Fifo(Run(calls), Enqueued(calls)) && Run(calls).wire <= Enqueued(calls)
  {
    if calls != [] {
      var before, call := calls[..|calls| - 1], calls[|calls| - 1];
      WriterIsAFifo(before);
      match call
      case Enqueue(msg) => EnqueueKeepsFifo(Run(before), Enqueued(before), msg);
      case WriteDone | WriteFailed => CallbackKeepsFifo(Run(before), Enqueued(before));
    }
  }

  /** Exactly one write is outstanding while something is queued, none otherwise: the writes
      started are the ones finished plus that one. Without a failure its callback is still to
      come. */
  lemma OneWriteOutstanding(calls: seq<Call>)
    ensures
      var w := Run(calls);
      && |w.wire| == w.finished + (if w.queue != [] then 1 else 0)
      && (w.CallbackDue() <==> w.queue != [] && !w.failed)
      && (w.queue == [] ==> w.wire == Enqueued(calls))
  {
    WriterIsAFifo(calls);
  }

  /** After a failed write nothing is ever written again, however much is enqueued. */
  lemma {:induction false} FailureStopsTheWire(calls: seq<Call>, more: seq<Call>)
    requires Run(calls).CallbackDue()
    ensures Run(calls + [WriteFailed] + more).failed && Run(calls + [WriteFailed] + more).wire == Run(calls).wire
  {
    var failed := calls + [WriteFailed];
    if more == [] {
      assert failed + more == failed && failed[..|failed| - 1] == calls;
    } else {
      var last := |more| - 1;
      FailureStopsTheWire(calls, more[..last]);
      assert (failed + more)[..|failed + more| - 1] == failed + more[..last];
      WriterIsAFifo(failed + more[..last]);
    }
  }

  function Callbacks(n: nat): seq<Call> {
    seq(n, _ => WriteDone)
  }

  /** Without a failure everything goes out: after as many callbacks as messages are queued, the
      wire holds all that was enqueued, in order. */
  lemma {:induction false} EverythingGetsWritten(calls: seq<Call>)
    requires !Run(calls).failed
    ensures
      var w := Run(calls + Callbacks(|Run(calls).queue|));
      w.queue == [] && w.wire == Enqueued(calls) && !w.failed
    decreases |Run(calls).queue|
  {
    WriterIsAFifo(calls);
    var n := |Run(calls).queue|;
    if n == 0 {
      assert calls + Callbacks(0) == calls;
    } else {
      var next := calls + [WriteDone];
      assert next[..|calls|] == calls;
      EverythingGetsWritten(next);
      assert next + Callbacks(n - 1) == calls + Callbacks(n);
    }
  }

  /** The server's type check accepts the first message of every run: given that it arrives,
      the handshake is refused only for a missing, taken or undeliverable id, and an id the
      agent brought is granted only if no session has it. */
  lemma HandshakeAcceptsFirstMessage(calls: seq<Call>, metadataId: Option<string>, registered: set<string>, newId: string, sendOk: bool)
    ensures Run(calls).wire != []
    ensures
      var r := Handshake(Received(Run(calls).wire[0]), metadataId, registered, newId, sendOk);
      && (r == Failure(InvalidArgument) <==> metadataId.None?)
      && (r == Failure(AlreadyExists) <==> metadataId.Some? && metadataId.value != "" && metadataId.value in registered)
      && (r == Failure(SendFailed) <==> metadataId == Some("") && !sendOk)
      && (r.Success? ==> r.value == if metadataId == Some("") then newId else metadataId.value)
    ensures forall first: Arrival :: Handshake(first, metadataId, registered, newId, sendOk).Success? ==> first.Received? && first.msg.kind == ID
  {
    WriterIsAFifo(calls);
  }
}
