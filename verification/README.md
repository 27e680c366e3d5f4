# Volta, verified

A Dafny model of the Volta monitoring pipeline: the agent's ring buffers and its acknowledged
metric stream, the server's event bus and WebSocket hub, and the dashboard's stores. The
theorems are about whole runs: every interleaving of collector, poll thread, gRPC callbacks,
wires and server; every order of subscriptions, publishes, pumps and shutdown; every order of
browser events.

## How it is put together

- `Telemetry` holds the values that travel: metrics, keys, samples, batches.
- `SeriesBuffers` and `MetricsBuffers` are the agent's buffers, as classes with the source's
  fields, proved against a series that remembers everything ever pushed.
- `StreamProtocol` is the stream as a step system, one step per lock region. A write callback is
  split where the source drops its lock, and any number of callbacks may be between their pop
  and their `Write()`. `StreamInvariant` proves what every step keeps, `StreamTheorems` what
  follows in every reachable state, and `StreamReactor` ties the reactor's own methods to the
  steps.
- `StreamService` proves that the stream does send: what rounds take up, and that everything can
  be published.
- `EventBuses` and `HubProtocol` are the fan-out. Panics (closing a closed channel, sending on
  one) are states of the model, so their absence is a theorem with an exact condition.
  `HubService` proves that clients are served and that shutdown goes through.
- `Identity`, `SeriesNames` and `KeyHash` follow a series' identity from the metric to the
  dashboard's name, and the hash of its key.
- `RollingWindow`, `Reconnect`, `RecentUrls` and `Stats` are the dashboard's state;
  `ControlWriter` is the control stream's writer and the server's handshake.
- `Pipeline` puts stream, fan-out and one effect instance of the dashboard into one step system,
  `EndToEnd` proves what the dashboard then shows, `Delivery` and `Arrival` that what the agent
  has collected can get there.

`dafny verify dfyconfig.toml` checks everything.

## Modelling decisions

- Counters and ids are unbounded; 2^64 wrap-around is not modelled. The casts that narrow key
  fields, the signed-to-unsigned timestamp and the 64-bit hash are modelled with their moduli.
- Wires are reliable FIFOs that may stop: a run may end anywhere, and a failed write leaves the
  queue as it is for good, as in the source.
- `fetch_add` on the batch counter and the pending entry are one step: only the poll thread does
  either. `AckSnapshot` and the erasure of the entry are one step: they happen under one lock.
- One `AddMetrics` call is a series of one-sample steps: snapshots take only the series' lock
  and can fall between them.
- In a joint run the effect exists from the start; one that is mounted later is the same run with
  its first events later. A socket may be subscribed at any time after it was created, even
  after the browser has given it up, and frames reach it only while it is open, in the order its
  pump wrote them.
- Progress is stated as the existence of a continuation from every state of every run, and, for
  the stream, as a bound on the steps any run can take before it is done.
- A Publish call copies its list and then sends one by one; an agent's stream publishes one
  batch at a time.
- The ring's vector is a sequence that the methods reassign. The hash's offset is the constant
  in the source, which is not the published FNV-1a basis.

## Findings

- The comment in `OnReadDone` expects acks for unknown batches; they cannot happen, because the
  pending entry is made before the batch is queued (`AcksAreNeverUnknown`).
- CPU utilisation is collected without a device and shows up as "CPU 0:0"
  (`UtilisationGainsADevice`); `DeviceRoundTrip` says exactly which metrics keep their device.
- Metrics whose device kind does not fit their type can be buffered apart and merged on the
  dashboard; `MergedExactly` says when, and `SharedNamesInterleaveBatches` what is then shown.
  The shipped collectors send GPU metrics with GPU devices, package power with a CPU device and
  the rest (RAM, CPU utilisation) without a device, so none of their metrics merge
  (`CleanPipelineDeliversInOrder`).
- `SetCapacity` does not reset the tail, and `AckSnapshot` accepts ends beyond the head; each
  leaves an invalid ring exactly then. No caller in the repository does either.
- The hub never removes a client before shutdown: its remove branch is dead code and subscriber
  lists only grow (`ClosedOnlyAfterShutdown`).
- For the same reason nothing ever reads the hub's remove queue: at most sixteen pumps end, and
  any further one blocks on its last send (`AtMostSixteenPumpsEnd`, `RemoveNeverShrinks`).
- A Publish that overlaps the drain can panic; `OrderlyRunsNeverPanic` and `DisorderCanPanic`
  give the exact condition, `PanicsAreReachable` a run. A Publish that starts after the loop has
  stopped is safe.
- The dashboard's status stays "open" while a socket is closing, after an error or because the
  server closes (`OpenStatusWhileClosing`); `OpenMeansOpenExactly` says when "open" means open.
- Keys that differ in one field never collide in the hash (`OneFieldNeverCollides`): the prime is
  2^40 + 435, and small multiples of its powers do not cancel.

## Model

| member | source | states |
|---|---|---|
| StreamTheorems.BatchesCoverExactRanges | sources/agent/src/client/stream_metrics_reactor.cc:24-93 | In every reachable state of the stream, each batch ever made carries a nonempty stretch of its series' push log that starts exactly at max(end of that series' previous batch, head at the snapshot - capacity); skipped indices were delivered before or evicted; ranges of one series are disjoint and increasing; the published batches are these batches in order, each once. |
| StreamTheorems.PublishedInOrderAtMostOnce | sources/server/internal/server/server.go:170-189 | What the server has published of a series is the agent's log read at strictly increasing indices, and every missing index below the last published end was dropped by a push onto a full ring and lies more than a capacity behind the head. |
| StreamTheorems.DeliveryIsASubsequence | sources/agent/src/client/stream_metrics_reactor.cc:139-182 | Any ordered selection of batches delivers a strictly increasing selection of the log, sample by sample. |
| StreamTheorems.BelowTailIffDeliveredOrEvicted | sources/agent/src/buffer.cc:90-94 | Ack safety as an equivalence: a log index is below the tail if and only if a full push evicted it or an acknowledged (hence published) batch carries it; the tail is max(last acknowledged end, head - capacity). |
| StreamTheorems.AcksAreNeverUnknown | sources/agent/src/client/stream_metrics_reactor.cc:65-86 | Every ack that arrives names the oldest pending batch; the branch for unknown ids, the dereference of a missing series and the pop of an empty queue are unreachable. |
| StreamTheorems.BoundedMemory | sources/agent/src/client/stream_metrics_reactor.cc:131-137 | Over unbounded runs: at most one pending batch per series, at most one more queued, every queued batch that is not being written is pending and no longer than the ring, and with nothing pending at most the in-flight batch is queued. |
| StreamTheorems.NoStrandedBatch | sources/agent/src/client/stream_metrics_reactor.cc:33-49 | A queued batch that nobody is writing is pending, and either a write callback is between its pop and its Write(), or the poll thread is between its key list and its Write(). |
| StreamTheorems.TheIdleBatchIsWritten | sources/agent/src/client/stream_metrics_reactor.cc:120-129 | Whoever that is writes it: the recheck must go on to Write(), and that Write() puts the front of the queue on the wire. |
| StreamTheorems.EveryRoundCompletes | sources/agent/src/client/stream_metrics_reactor.cc:95-129 | In any legal run from a reachable state, pushes and failed writes included, the steps that move a round forward number at most Rank(s), plus 9 per new series, plus 4 + 9 per series for every further round opened; and whenever none is left and no write has failed, every batch made is published and acknowledged and the queue is empty. |
| StreamTheorems.LogsAreTheCollected | sources/agent/src/buffer.cc:116-134 | In every run, whatever is sent and acknowledged meanwhile, a series exists exactly if some collected metric has its key, and its log is those metrics' samples in order (empty for a capacity of 0). |
| StreamTheorems.CompletionExists | sources/agent/src/client/stream_metrics_reactor.cc:95-129 | From every state the invariant allows without a failed write, a schedule of such steps alone settles everything. |
| StreamTheorems.SomeStepIsProductive | sources/agent/src/client/stream_metrics_reactor.cc:24-55 | No deadlock: while something is pending or queued and no write has failed, some step moves the round forward. |
| StreamTheorems.ProductiveStepsLowerRank | sources/agent/src/client/stream_metrics_reactor.cc:95-129 | Every step that moves a round forward lowers the number of hops that are left. |
| StreamTheorems.OtherStepsSetBackAtMost | sources/agent/src/client/stream_metrics_reactor.cc:24-55 | The other steps add at most 9 hops for a new series and 4 + 9 per series for a new round, and nothing else. |
| StreamService.RoundsTakeUpEverything | sources/agent/src/client/stream_metrics_reactor.cc:24-49 | Every round takes up everything: once the poll thread has passed its gate, in every run and whatever the other threads do, when it has visited all keys every sample that a series held at the start of the round is in a batch or was overwritten. |
| StreamService.EverySampleCanBePublished | sources/agent/src/client/stream_metrics_reactor.cc:24-182 | From every reachable state without a failed write, a schedule that pushes nothing leads to a state in which every index of every log is carried by a published batch, except those a full push had already dropped. |
| StreamService.ComesToRest | sources/agent/src/client/stream_metrics_reactor.cc:95-129 | Without a failed write the protocol can always be brought to rest: poll thread at its gate, everything made published and acknowledged, nothing queued. |
| StreamService.StepKeepsPromise | sources/agent/src/client/stream_metrics_reactor.cc:131-182 | What a round has promised to take up stays promised under every step of every thread. |
| StreamInvariant.StepKeepsInv | sources/agent/src/client/stream_metrics_reactor.cc:24-182 | Every atomic step of collector, poll thread, callbacks, wires and server keeps the stream invariant. |
| StreamInvariant.RunsKeepInv | sources/agent/src/client/stream_metrics_reactor.cc:24-182 | The invariant holds after every run. |
| StreamInvariant.CollectKeepsInv | sources/agent/src/buffer.cc:116-129 | A push, at any moment of a round, keeps it. |
| StreamInvariant.PushKeepsTail | sources/agent/src/buffer.cc:56-64 | A push moves the tail only by evicting the sample it points at. |
| StreamInvariant.AckKeepsTail | sources/agent/src/buffer.cc:90-94 | Acknowledging the series' next batch moves the tail to the batch's end unless pushes moved it further, and loses track of no index. |
| StreamInvariant.ReadKeepsInv | sources/agent/src/client/stream_metrics_reactor.cc:68-86 | The ack callback keeps the invariant. |
| StreamInvariant.SnapshotExtends | sources/agent/src/client/stream_metrics_reactor.cc:139-145 | A snapshot of a series with nothing pending starts where its last batch ended, unless samples were overwritten since. |
| StreamInvariant.RegisterKeepsInv | sources/agent/src/client/stream_metrics_reactor.cc:173-178 | Making the pending entry before the batch is queued keeps the invariant. |
| StreamInvariant.RecheckKeepsInv | sources/agent/src/client/stream_metrics_reactor.cc:27-47 | Seeing no pending entry is safe to act on: then no idle batch is in the queue. |
| StreamInvariant.ServerKeepsInv | sources/server/internal/server/server.go:170-189 | Receiving, publishing and acknowledging, one step each, keep the invariant. |
| StreamInvariant.WriteKeepsInv | sources/agent/src/client/stream_metrics_reactor.cc:120-129 | Write() keeps the invariant and leaves a write outstanding unless the queue is empty. |
| StreamInvariant.WriteDoneKeepsInv | sources/agent/src/client/stream_metrics_reactor.cc:95-105 | A finished and a failed write keep the invariant. |
| StreamReactor.StreamMetricsReactor.Write | sources/agent/src/client/stream_metrics_reactor.cc:120-129 | The method refines the step, and hands exactly the front of the queue to gRPC if no write is outstanding. |
| StreamReactor.StreamMetricsReactor.OnWriteDone | sources/agent/src/client/stream_metrics_reactor.cc:95-112 | Pop then Write(); a failed write changes nothing. |
| StreamReactor.StreamMetricsReactor.OnReadDone | sources/agent/src/client/stream_metrics_reactor.cc:59-93 | Acknowledges the named batch on its ring and erases its entry; otherwise nothing changes. |
| StreamReactor.StreamMetricsReactor.FillBatch | sources/agent/src/client/stream_metrics_reactor.cc:147-171 | The loop builds a batch of as many values and times as there are samples: each value the sample's, each time the sample's as a uint64, with type and rebuilt device of the key. |
| StreamReactor.StreamMetricsReactor.EnqueueMetrics | sources/agent/src/client/stream_metrics_reactor.cc:139-182 | One series: snapshot, nothing if empty, otherwise a pending entry and a queued batch under a fresh id. |
| StreamReactor.StreamMetricsReactor.EnqueueAllMetrics | sources/agent/src/client/stream_metrics_reactor.cc:131-137 | All listed keys in order. |
| StreamReactor.StreamMetricsReactor.PollTurn | sources/agent/src/client/stream_metrics_reactor.cc:24-55 | A turn that finds nothing pending leaves exactly one pending entry for every series with something unsent, holding all of it, a queued batch that carries it, and, if anything is pending and no write was outstanding, the front of the queue on the wire; and it is the turn its specification functions describe. |
| StreamReactor.EnqueueAllVisits | sources/agent/src/client/stream_metrics_reactor.cc:131-182 | Visiting any list of keys makes one entry and one batch for each key with something unsent and touches no other entry. |
| StreamReactor.PollTurnIsARun | sources/agent/src/client/stream_metrics_reactor.cc:24-55 | An uninterrupted turn of the poll loop is a run of poll-thread steps from gate to gate with the same effect on reactor and wire. |
| StreamReactor.EnqueueAllIsARun | sources/agent/src/client/stream_metrics_reactor.cc:131-182 | The same for visiting all keys. |
| SeriesBuffers.SeriesBuffer.constructor | sources/agent/src/buffer.cc:42-44 | An empty ring of the given capacity. |
| SeriesBuffers.SeriesBuffer.SetCapacity | sources/agent/src/buffer.cc:46-54 | Empties the ring but keeps the tail; the result is a valid ring if and only if the tail had not moved. |
| SeriesBuffers.SeriesBuffer.Push | sources/agent/src/buffer.cc:56-64 | Appends to the log, evicting the oldest unsent sample exactly when the ring is full; the ring stays the window of the log's last samples. |
| SeriesBuffers.SeriesBuffer.Latest | sources/agent/src/buffer.cc:66-71 | The last element of the log, if any. |
| SeriesBuffers.SeriesBuffer.GetNextSnapshotSize | sources/agent/src/buffer.cc:73-76 | The size of the next snapshot, never more than the capacity. |
| SeriesBuffers.SeriesBuffer.GetSnapshot | sources/agent/src/buffer.cc:77-88 | Exactly log[tail..head), with end == head. |
| SeriesBuffers.SeriesBuffer.AckSnapshot | sources/agent/src/buffer.cc:90-94 | Moves the tail up to the snapshot's end and never back; the ring stays valid if and only if that end is not beyond the head. |
| SeriesBuffers.TailClosedForm | sources/agent/src/buffer.cc:56-94 | After any mix of pushes, snapshots and late, repeated or reordered acks: tail == max(greatest acked end, head - capacity, 0) and the log is exactly what was pushed. |
| SeriesBuffers.AcksCommute | sources/agent/src/buffer.cc:90-94 | After any history two acks commute and a repeated ack changes nothing. |
| SeriesBuffers.InterleavingDoesNotMatter | sources/agent/src/buffer.cc:56-94 | Histories with the same pushes and the same greatest acked end leave the same next snapshot. |
| MetricsBuffers.LogsAreTheMetrics | sources/agent/src/buffer.cc:116-134 | After any metrics and for any capacity, a key exists exactly if some metric had it, its log is those metrics' samples in order, and its snapshot the last of them that fit. |
| MetricsBuffers.AddSampleKeepsValid | sources/agent/src/buffer.cc:116-123 | The key list stays the map's domain without duplicates and never shrinks. |
| MetricsBuffers.MetricsBuffer.GetBuffer | sources/agent/src/buffer.cc:109-114 | Null exactly for keys that are not listed; otherwise the shared ring, in good order, holding exactly the key's series. |
| MetricsBuffers.MetricsBuffer.GetAllKeys | sources/agent/src/buffer.cc:158-161 | Every existing series exactly once, in order of first samples. |
| MetricsBuffers.MetricsBuffer.FindOrCreate | sources/agent/src/buffer.cc:117-121 | Finds the ring or inserts an empty one and lists its key. |
| MetricsBuffers.MetricsBuffer.AddSample | sources/agent/src/buffer.cc:116-123 | Changes the one series the key names, in place, and no other. |
| MetricsBuffers.MetricsBuffer.AddMetric | sources/agent/src/buffer.cc:125-129 | Skips unspecified types, otherwise adds the sample under the metric's key. |
| MetricsBuffers.MetricsBuffer.AddMetrics | sources/agent/src/buffer.cc:131-134 | The loop over a vector of metrics. |
| Identity.DeviceRoundTrip | sources/agent/src/client/stream_metrics_reactor.cc:153-171 | The device rebuilt from a metric's key equals the metric's device if and only if kind and hundred-range agree and the fields fit the key (or the metric has no device and a type outside the device ranges). |
| Identity.MakeBatchCarries | sources/agent/src/client/stream_metrics_reactor.cc:147-173 | A batch carries its samples value by value and time by time. |
| Identity.UtilisationGainsADevice | sources/agent/src/collectors/proc_stat_collector.cc:44-46 | The CPU utilisation metric, reported without a device, reaches the wire as CPU 0:0. |
| Identity.KeyIdentifiesSeries | sources/agent/src/buffer.cc:163-190 | Two faithful metrics share a key exactly if type and device are equal. |
| Identity.CleanKeysExactly | sources/agent/src/buffer.cc:163-190 | A key uses no field outside its type's group if and only if the device is absent, all zeros once truncated, or of the type's kind. |
| Identity.BuffersCoincide | sources/agent/src/buffer.cc:163-190 | Two metrics, faithful or not, share a buffer if and only if types and truncated devices are equal (a device of zeros counts as none). |
| Identity.RebuiltDevicesCoincide | sources/agent/src/client/stream_metrics_reactor.cc:153-171 | Two metrics of one type get the same device rebuilt if and only if they share a buffer or neither device is seen through the type. |
| Identity.CleanKeysAreDetermined | sources/agent/src/client/stream_metrics_reactor.cc:153-171 | Such keys are determined by type and rebuilt device. |
| SeriesNames.SeriesKeyIsInjective | sources/dashboard/src/lib/metrics.ts:163-185 | Two headers get the same dashboard name if and only if type and device are equal, for all integers and field values. |
| SeriesNames.PrintReadsBack | sources/dashboard/src/lib/metrics.ts:163-180 | Printing in base 10 and 16 can be read back. |
| SeriesNames.HexReadsBack | sources/dashboard/src/lib/metrics.ts:168-172 | So can padded hexadecimal, whatever the width. |
| SeriesNames.FormatIsInjective | sources/dashboard/src/lib/metrics.ts:163-180 | Device labels of different devices differ. |
| SeriesNames.CpuLabel | sources/dashboard/src/lib/metrics.ts:166-167 | A CPU's label is "CPU ", digits that read as the socket, a colon, digits that read as the core. |
| SeriesNames.GpuLabel | sources/dashboard/src/lib/metrics.ts:168-172 | A GPU's label reads back as domain, bus and device in padded hexadecimal and function in decimal. |
| SeriesNames.DiskLabel | sources/dashboard/src/lib/metrics.ts:175-176 | A disk's label reads back as major and minor number. |
| SeriesNames.NetworkLabel | sources/dashboard/src/lib/metrics.ts:173-174 | An interface's label reads back as its index. |
| SeriesNames.NameLayout | sources/dashboard/src/lib/metrics.ts:183-185 | A series' name is its type in decimal, two colons and the label. |
| SeriesNames.IdentitySurvives | sources/agent/src/buffer.cc:163-190 | Two faithful metrics end up in the same dashboard series exactly if type and device are equal. |
| SeriesNames.CleanNamesAreUnique | sources/dashboard/src/lib/metrics.ts:182-185 | Among clean keys the dashboard name determines the key. |
| SeriesNames.NamesCoincide | sources/dashboard/src/lib/metrics.ts:182-185 | Two buffered series share a dashboard name if and only if type and rebuilt device are equal. |
| SeriesNames.MergedExactly | sources/dashboard/src/lib/metrics.ts:182-185 | Two metrics are buffered apart and merged on the dashboard if and only if their types are equal, their truncated devices differ, and each device is absent, all zeros or of another kind than the type's. |
| SeriesNames.SomeSeriesMerge | sources/dashboard/src/lib/metrics.ts:182-185 | Two concrete metrics that merge. |
| KeyHash.HashCombineBytes | sources/agent/src/buffer.cc:16-23 | The loop computes the byte-wise xor-multiply fold modulo 2^64. |
| KeyHash.HashKey | sources/agent/src/buffer.cc:27-40 | Hashing field by field is hashing the key's 24 bytes. |
| KeyHash.MixIsInjective | sources/agent/src/buffer.cc:18-21 | One step is injective in the state and in the byte. |
| KeyHash.NeighboursNeverCollide | sources/agent/src/buffer.cc:16-40 | Byte strings that differ only within four neighbouring bytes never collide, whatever surrounds them. |
| KeyHash.CloseKeysNeverCollide | sources/agent/src/buffer.cc:27-40 | Different keys whose bytes differ in one byte, or only within four neighbouring ones, never collide. |
| KeyHash.OneFieldNeverCollides | sources/agent/src/buffer.cc:27-40 | Keys that differ in one field, of whatever width, never collide. |
| KeyHash.SmallMultiplesDoNotCancel | sources/agent/src/buffer.cc:13-14 | Small multiples of the first three powers of the prime cancel modulo 2^64 only if they are all zero. |
| EventBuses.OfferKeepsValid | sources/server/internal/eventBus/eventBus.go:28-34 | A non-blocking send queues below 16 and drops at 16, and keeps the conservation invariant. |
| EventBuses.TakeKeepsValid | sources/server/internal/hub/hub.go:87-93 | A receive appends the queue's front to what was consumed. |
| EventBuses.ChannelConserves | sources/server/internal/eventBus/eventBus.go:24-46 | Consumed then queued is, in order, what was kept of what was offered; an offer was dropped if and only if the queue held 16 at that moment. |
| EventBuses.Subscriber.TrySend | sources/server/internal/eventBus/eventBus.go:29-33 | The send with default branch, in place. |
| EventBuses.EventBus.Subscribe | sources/server/internal/eventBus/eventBus.go:37-46 | Appends a fresh open channel to the agent's list. |
| EventBuses.EventBus.Publish | sources/server/internal/eventBus/eventBus.go:24-35 | Offers the batch once to every listed subscriber of the agent and touches nobody else. |
| EventBuses.EventBus.Unsubscribe | sources/server/internal/eventBus/eventBus.go:48-59 | Removes the subscriber's first occurrence and closes its channel. |
| HubProtocol.ClosedOnlyAfterShutdown | sources/server/internal/hub/hub.go:56-81 | In every run: as long as the loop is live the remove queue is empty, no channel is closed, and every subscriber ever made is still listed. |
| HubProtocol.OrderlyRunsNeverPanic | sources/server/cmd/server/main.go:91-105 | In every run that closes the hub once and keeps Publish calls away from clients being drained, nothing is closed twice and nothing is sent on a closed channel; publishing may resume after the loop stopped. |
| HubProtocol.DisorderCanPanic | sources/server/internal/hub/hub.go:70-78 | Conversely, after any step that breaks this order some continuation panics. |
| HubProtocol.PanicsAreReachable | sources/server/internal/hub/hub.go:70-85 | Two runs from the start that end in a send on a closed channel and in a second close. |
| HubProtocol.SubscribersConserve | sources/server/internal/eventBus/eventBus.go:24-46 | In every run: what was published for the agent since the subscription is what was offered (up to a Publish under way); consumed plus queued is an in-order selection of it; the queue holds at most 16; a batch is missing if and only if the queue held 16 when it was offered; other agents' batches never appear. |
| HubService.EveryClientHasAPump | sources/server/internal/hub/hub.go:56-63 | In every run: every subscriber is being handed over or has a pump, every client's pump is running, and a pump stops only when its channel is closed and everything kept was taken. |
| HubService.EverySubscriberCanBeServed | sources/server/internal/hub/hub.go:87-104 | From every calm state of a run with a live loop, some continuation hands any subscriber, wherever it is, everything its channel has kept, in order. |
| HubService.PumpTakes | sources/server/internal/hub/hub.go:87-93 | A running pump empties its channel by its own steps alone. |
| HubService.SubscriberGetsItsPump | sources/server/internal/hub/hub.go:58-63 | As long as the loop is live, every subscriber can be registered and given its pump. |
| HubService.ShutdownClosesEveryClient | sources/server/internal/hub/hub.go:70-78 | Once the hub is closed, the live loop can stop, with every client's channel closed and no client left. |
| HubService.ClosedChannelsPumpLeaves | sources/server/internal/hub/hub.go:87-93 | The pump of a closed channel can take the rest and leave, if the remove queue has room. |
| HubService.AtMostSixteenPumpsEnd | sources/server/internal/hub/hub.go:88-88 | In every run the pumps that have ended are exactly those in the remove queue, at most sixteen; when it is full no other can end. |
| HubService.RemoveNeverShrinks | sources/server/internal/hub/hub.go:65-69 | Nobody ever takes anything out of the remove queue. |
| HubProtocol.StepKeepsInv | sources/server/internal/hub/hub.go:56-104 | Every step of handlers, run loop, pumps and publishers keeps the hub invariant. |
| HubProtocol.RemoveIsEmptyWhileLive | sources/server/internal/hub/hub.go:65-69 | The remove branch of the run loop is dead code while the loop is live. |
| HubProtocol.OrderlyStepIsCalm | sources/server/internal/hub/hub.go:70-78 | An orderly step never panics and keeps publishers clear of closing channels. |
| ControlWriter.ConnectReactor.constructor | sources/agent/src/client/connect_reactor.cc:15-27 | The first enqueued and written message is MESSAGE_ID. |
| ControlWriter.ConnectReactor.Write | sources/agent/src/client/connect_reactor.cc:89-102 | Starts a write of the front unless one is outstanding. |
| ControlWriter.ConnectReactor.EnqueueWrite | sources/agent/src/client/connect_reactor.cc:78-87 | Queues and writes under one lock. |
| ControlWriter.ConnectReactor.OnWriteDone | sources/agent/src/client/connect_reactor.cc:29-44 | Pops and writes the next one; a failure leaves queue and flag as they are. |
| ControlWriter.WriterIsAFifo | sources/agent/src/client/connect_reactor.cc:29-44 | Over every run, failed writes included, the wire is a prefix of the enqueue order starting with MESSAGE_ID, short of it by exactly the messages behind the one in flight. |
| ControlWriter.OneWriteOutstanding | sources/agent/src/client/connect_reactor.cc:89-102 | Writes started are exactly the finished ones plus one while something is queued; its callback is still to come unless a write has failed. |
| ControlWriter.FailureStopsTheWire | sources/agent/src/client/connect_reactor.cc:29-34 | A write that fails is the last one: nothing is written after it, whatever is enqueued. |
| ControlWriter.EverythingGetsWritten | sources/agent/src/client/connect_reactor.cc:29-44 | Without a failure, as many callbacks as messages are queued put everything enqueued on the wire, in order. |
| ControlWriter.HandshakeAcceptsFirstMessage | sources/server/internal/server/server.go:102-151 | Given that it arrives, the first message of every run passes the handshake's type check, so each refusal has exactly its own cause (missing, taken or undeliverable id) and the granted id is determined; nothing but a received ID message is ever accepted. |
| RollingWindow.MetricsStore.Ingest | sources/dashboard/src/stores/metrics-store.ts:40-74 | A batch without points changes nothing; any other one its own series and no other: the last 600 of the old points followed by the batch's, each value as it came, each time the millisecond of its nanoseconds, with the batch's type and device. |
| RollingWindow.StoredSeriesMatchTheirBatches | sources/dashboard/src/stores/metrics-store.ts:60-70 | Type and device of a stored series are those of every batch ingested under its name. |
| RollingWindow.WindowIsTheLast600 | sources/dashboard/src/stores/metrics-store.ts:48-60 | After any batches the window is the last 600 of everything ingested under the name. |
| RollingWindow.EarlyTruncationIsHarmless | sources/dashboard/src/stores/metrics-store.ts:56-60 | Truncating at every batch equals truncating once. |
| EndToEnd.PipelineDeliversInOrder | sources/dashboard/src/stores/metrics-store.ts:40-73 | In every joint run of collector, stream, fan-out and one effect instance with any number of reconnects: the points shown for a series whose name no other series shares are, value by value and at the millisecond of each time, the last at most 600 of what was collected for it, read at strictly increasing indices. |
| EndToEnd.CleanPipelineDeliversInOrder | sources/dashboard/src/stores/metrics-store.ts:40-73 | The same for every metric, without a condition on names, if all collected devices are absent or of their type's kind. |
| EndToEnd.SharedNamesInterleaveBatches | sources/dashboard/src/stores/metrics-store.ts:40-73 | The same without any condition and for every name: the window is the last at most 600 of the samples of whole batches, and of each series that shares the name these are an in-order, duplicate-free selection of what was collected for it. |
| EndToEnd.IngestedIsCarried | sources/dashboard/src/stores/metrics-store.ts:44-55 | What is ingested under a name shows, point by point and in order, what the batches of the series with that name carry. |
| EndToEnd.DashboardShowsALogSelection | sources/dashboard/src/stores/metrics-store.ts:40-73 | For any in-order, repeat-free selection of a stream's published batches: a series whose name is its own is shown as its log read at strictly increasing indices, cut to the last 600. |
| Pipeline.ReconnectsKeepOrder | sources/dashboard/src/features/metrics/use-metric-stream.ts:44-78 | In every joint run, what the sockets of the effect received, in the order of arrival, are batches at strictly increasing positions of what the stream published. |
| Pipeline.StepKeepsInv | sources/dashboard/src/features/metrics/use-metric-stream.ts:29-90 | Every step of stream, hub and browser keeps the joint invariant: every socket that can still deliver is ahead of everything that has arrived. |
| Pipeline.AcceptKeepsInv | sources/server/internal/hub/hub.go:95-104 | A subscription made for a socket starts behind everything that has arrived. |
| Pipeline.ListeningIsSole | sources/dashboard/src/features/metrics/use-metric-stream.ts:44-90 | At most one socket delivers messages: the current one, and none after disposal. |
| Pipeline.StreamRuns | sources/server/internal/server/server.go:170-189 | A joint run is a run of the stream, so all theorems about the stream hold in it. |
| Pipeline.HubRuns | sources/server/internal/hub/hub.go:56-104 | And a run of the hub. |
| Pipeline.BrowserRuns | sources/dashboard/src/features/metrics/use-metric-stream.ts:29-90 | And a run of the effect. |
| Delivery.KeptFramesCanBeDelivered | sources/dashboard/src/features/metrics/use-metric-stream.ts:63-69 | In every joint state of a run whose hub is calm, everything the channel of a listening socket has kept can be delivered, completely and in order. |
| Arrival.EverySampleCanArrive | sources/dashboard/src/features/metrics/use-metric-stream.ts:44-78 | In every joint run, wherever threads, sockets and publishers are: while the hub is calm and live, no write has failed and the effect is not disposed of, some continuation publishes every sample in the agent's logs that no full push has dropped and brings every batch published from now on to the dashboard. |
| Arrival.GetConnected | sources/dashboard/src/features/metrics/use-metric-stream.ts:44-78 | While the hub is at work, a dashboard that is not disposed of can get an open, subscribed socket. |
| Arrival.PublishReturns | sources/server/internal/eventBus/eventBus.go:24-35 | A Publish call of a live hub runs to its end and offers the batch once to everybody on its list. |
| Reconnect.OneSocketOrOneTimer | sources/dashboard/src/features/metrics/use-metric-stream.ts:29-80 | Until disposal, between events: exactly one of live socket and due timer; all other sockets closed; after k close events since the last open event the wait is min(1000*2^(k-1), 30000) ms; the status is "open" exactly from the current socket's open event to its close event. |
| Reconnect.FailuresAreCounted | sources/dashboard/src/features/metrics/use-metric-stream.ts:51-55 | An open event starts the count of failures in a row again. |
| Reconnect.OpenMeansOpenExactly | sources/dashboard/src/features/metrics/use-metric-stream.ts:51-77 | In every run until disposal: the status is "open" if and only if the current socket's open event was delivered, and then the socket is open if and only if neither an error nor a closing handshake has reached it. |
| Reconnect.SocketsAreAsTold | sources/dashboard/src/features/metrics/use-metric-stream.ts:44-90 | In every run, disposal included, every socket's state is a function of the events it received; disposal counts as a closing event of the then current socket. |
| Reconnect.OpenStatusWhileClosing | sources/dashboard/src/features/metrics/use-metric-stream.ts:71-77 | Two runs in which the status is "open" while the socket is closing: after an error, and after the server started to close. |
| Reconnect.DisposalIsFinal | sources/dashboard/src/features/metrics/use-metric-stream.ts:82-90 | After disposal no event creates a socket or a timer or changes the status from "idle"; no socket is or becomes open, and all that still happens to them is that they close. |
| Reconnect.DisposalClosesTheSocket | sources/dashboard/src/features/metrics/use-metric-stream.ts:82-90 | In every run, disposal cancels the timeout and tells the current socket to close, without its handlers; every other socket had closed before. |
| Reconnect.BackoffGrowsToItsCap | sources/dashboard/src/features/metrics/use-metric-stream.ts:9-42 | Waits never shrink and stay at 30 s from the sixth failure on. |
| Reconnect.MetricStream.constructor | sources/dashboard/src/features/metrics/use-metric-stream.ts:29-80 | The effect starts with one pending socket. |
| Reconnect.MetricStream.Handle | sources/dashboard/src/features/metrics/use-metric-stream.ts:51-90 | The handlers in place, against the event system. |
| RecentUrls.ConnectionStore.Connect | sources/dashboard/src/stores/connection-store.ts:44-46 | Up to the await: the given or stored URL, trimmed, is going to be probed; the error is cleared. |
| RecentUrls.TrimFacts | sources/dashboard/src/stores/connection-store.ts:45-45 | A trimmed URL neither begins nor ends with white space, and only white space was cut off. |
| RecentUrls.ConnectionStore.Probed | sources/dashboard/src/stores/connection-store.ts:47-59 | After the await: a successful probe puts the URL first, without a duplicate, in a list of at most five; a failed one records the error and leaves list and URL. |
| RecentUrls.ConnectionStore.ForgetRecent | sources/dashboard/src/stores/connection-store.ts:61-62 | The URL is gone; every other entry is still there, as often as before and in the old order. |
| RecentUrls.RecentIsExact | sources/dashboard/src/stores/connection-store.ts:49-52 | After any connects the list is exactly the first five of the de-duplicated reversed history. |
| RecentUrls.RecentStaysOrdered | sources/dashboard/src/stores/connection-store.ts:44-62 | With forgets it stays duplicate-free, at most five long, ordered by last use, and holds only URLs connected after they were last forgotten. |
| Stats.ComputeStats | sources/dashboard/src/lib/stats.ts:11-37 | The NaN record exactly if no value is finite; otherwise count, last, minimum and maximum of exactly the finite values of the list, their mean, and the square root of their mean squared deviation. |
| Stats.FilterSelects | sources/dashboard/src/lib/stats.ts:12-12 | The filter keeps exactly the finite values, in order. |
| Stats.MeanIsBetween | sources/dashboard/src/lib/stats.ts:24-32 | min <= mean <= max. |
| Stats.VarianceIdentity | sources/dashboard/src/lib/stats.ts:33-35 | count * variance == sum of squares - count * mean^2. |
| Stats.VarianceIsBounded | sources/dashboard/src/lib/stats.ts:33-35 | variance <= ((max - min)/2)^2. |
| Stats.VarianceIsNotNegative | sources/dashboard/src/lib/stats.ts:33-35 | The argument of the square root is not negative. |
| Stats.StddevLaws | sources/dashboard/src/lib/stats.ts:11-37 | For the root itself: mean between the extremes, stddev <= (max - min)/2, and the variance identity. |

## Left out

- gRPC, protobuf encoding, WebSocket and HTTP transport: foreign code, modelled as the wires above.
- Hardware collectors, exporter, terminal dashboard, configuration, logging, CORS and command routing: input/output around simple arithmetic and branches.
- `MessageQueue`: rests on POSIX notification semantics outside the repository.
- Session uniqueness in the registry: handshake check and registration are separate steps of the source, so only the handshake's own decision is modelled.
- `formatScaled` and the other formatters, chart components and theming: display only, and their laws are one-step facts.
- Metric labels and categories of a live series, and batches without a header: the agent always sets the header.
- IEEE rounding: `Stats` and the carried values use exact reals plus NaN and the infinities.
- `Math.sqrt`: a parameter of `Stats.ComputeStats`; `Stats.StddevLaws` takes it to return the nonnegative number whose square is the variance.
- The requests the stream hook sends when a socket opens (start streaming, refresh the agent list): calls into other parts of the system.
- The agent list loaded on connect and the persistence of the connection store: other stores and the browser's storage.
- Overlap of Publish with the in-place shift of a subscriber list in Unsubscribe: the model copies the list by value, so a torn read of the shifted array is not modelled; orderly runs exclude the overlap for clients.
- StreamReactor.StreamMetricsReactor.OnWriteDone: requires an outstanding write, which is when gRPC calls back.
- KeyHash.NeighboursNeverCollide: says nothing about differences spread over more than four neighbouring bytes; 24 bytes do not fit into 64 bits, so some of those collide.
