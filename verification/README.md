# Verified models of the Marianne conductor's coordination code

Marianne's conductor is single-threaded asyncio: between two suspension points nothing interleaves. The models
take each such stretch as one atomic step. A component is a class whose methods are those steps, with the fields of
the source; every method is proved against a step of a specification on values; a run is any sequence of steps that
are possible one after the other; and the theorems are about every run. They say both what cannot happen and what has
to: for each component the state is also read off the events of the run, by definitions of their own that do not go
through its steps. Graph and byte algorithms are methods with
the loops of the source, proved against definitions that do not mention the algorithm (walks, the last newline, the
strongest source that names a file).

| file | component | main results |
|---|---|---|
| `ConcurrencyGate.dfy` | resizable admission gate | no lost wake-up, no over-admission, cancellation without a trace |
| `CheckpointWriter.dfy`, `AcknowledgedWrites.dfy` | checkpoint writer with acknowledged writes | nobody is stranded by `stop`, acknowledged means saved, first in first out |
| `WriterHistory.dfy` | that writer, read off the events | every caller is told the first answer to its request |
| `CheckpointOrder.dfy` | order of versions in that writer | the exact condition for increasing versions, with the runs that break it |
| `McpSocketBridge.dfy` | multiplexing bridge | each response answers one open request of that client, at most once |
| `BridgeHistory.dfy` | that bridge, read off the events | every client is sent exactly what it is due |
| `JsonRpcFraming.dfy` | the two framings of that bridge | stream round trip, exactly when lines fit the limit |
| `EventBus.dfy` | event bus | isolation of subscribers, bounded queues, nothing lost uncounted |
| `BusHistory.dfy` | that bus, read off the events | ten failures in a row, and who is handed what |
| `Graphs.dfy`, `Fleet.dfy` | dependency layers of a fleet | layers are exactly the acyclic part, launch safety |
| `FanOut.dfy` | expansion of stages into sheets | edges are exact, acyclicity and ancestry carry over |
| `Producers.dfy` | ancestors, foreign artifacts, product merge | transitive closure, ownership by the strongest source |
| `Mailbox.dfy` | crash-tolerant inbox file | every acknowledged message exactly once, in order and as it was sent |
| `LineAssembly.dfy`, `OutputHub.dfy` | live output | chunking does not matter, ring and watchers keep every line in its place |
| `SheetState.dfy` | retry budget and fallback chain of a sheet | exact bound on failures, money survives resets, when the primary runs |
| `SheetHistory.dfy` | that sheet, read off the events | what costs a retry, which instrument runs, what is recorded |
| `JobProgress.dfy` | watermark and next sheet of a job | sequential runs miss nothing, completion is exact |
| `RateCoordinator.dfy` | mirror of rate limits | pruning is invisible |
| `Keyring.dfy` | key rotation | round-robin fairness |
| `Sequences.dfy`, `ByteStrings.dfy` | shared notions about sequences and bytes | |

`dafny verify dfyconfig.toml` checks the project.

## Assumptions

- Messages on the bridge are JSON objects, from clients and from the upstream MCP server alike. Beyond that the server
  is not constrained: it may send any object at any time. A request of its own would be taken for a response, as the
  code takes it, and the theorems about responses cover that case.
- `os.write` in the mailbox stores the whole record or its sender dies. The advisory lock makes sends and reads atomic.
- Callbacks and filters do not call back into the event bus.
- Clocks do not run backwards and start at zero or later; their readings are arguments.
- JSON is a parameter with two facts: what is printed has no raw newline, and it is read back as what was printed.
- A write to a client's socket either succeeds or fails as a whole; the failure is an input of the step.

## Where the code and its documentation differ

- "Writes never reorder" (checkpoint_writer.py:14) does not hold in general. An enqueue between the start and the
  completion of an acknowledged write for the same job reorders, a cancelled caller does so even later, and two
  overlapping acknowledged writes at a full queue do so without any enqueue. `CheckpointOrder` has these three runs
  and the exact condition under which versions do increase.
- A `stop` of the checkpoint writer that is cancelled while it waits leaves a writer that refuses every acknowledged
  write, and a later `start` has no effect on it, because its consumer task is still there.
- The limit of 1 MiB on a JSON-RPC line (mcp_socket_bridge.py:470) is never reached: asyncio's own line limit of
  64 KiB refuses such a line first, so the round trip of newline framing holds exactly up to 64 KiB.
- The line buffer of the output hub promises lines split at newlines; a line of more than 8 KiB is still emitted
  whole if it arrives within one chunk, so what is emitted depends on the chunks exactly when one of them ends with
  more than 8 KiB pending.
- A balanced chain is to run each entry with its own configuration (dispatch.py:160-165). After a reset it does so if
  and only if the configuration last put in front is the authored one: the remembered primary is restored over the
  rotated chain, with the configuration of the entry that was chosen. If that entry has another name, it is gone and
  the primary is in the chain twice; entries that differ in their models only keep the balanced order.
- The bound of 50 on the switches of a sheet (checkpoint.py:1326-1331) is not kept by balanced dispatches.
- A callback that itself ends in a CancelledError ends its worker, while its subscriber stays in the table: an isolated
  failure that neither counts nor evicts. A callback that swallows the cancellation of its removed subscriber is
  handed the next event of its queue (event_bus.py:319-331).
- All sheets completed is counted, not compared (checkpoint.py:1846-1854): a sheet number beyond the total stands in for
  one that never ran.
- `get_next_sheet` returns none although sheets are open once a later sheet has been completed first; skipping a
  sheet does not move the watermark.

## Model

| member | source | states |
|---|---|---|
| `ConcurrencyGate.Gate.TryAcquire` | src/marianne/daemon/concurrency.py:68-80 | one turn of the loop in `acquire` is the gate's `Try` step: a slot is taken exactly when one is free, otherwise the wake event is cleared and the call parks |
| `ConcurrencyGate.Gate.ReleaseSlot` | src/marianne/daemon/concurrency.py:82-89 | a release without a holder is the error case and changes nothing; any other gives one slot back and wakes every parked call |
| `ConcurrencyGate.Gate.SetLimit` | src/marianne/daemon/concurrency.py:91-100 | a limit below one is refused; otherwise only the limit changes, never a holder, and every parked call is woken |
| `ConcurrencyGate.NoLostWakeup` | src/marianne/daemon/concurrency.py:68-100 | in every interleaving of acquire, release, resize and cancellation: a call that is parked and not woken implies `acquired >= limit`, and `acquired` is the number of holders |
| `ConcurrencyGate.NoOverAdmission` | src/marianne/daemon/concurrency.py:68-80 | at every point of every run the count rises only by an acquire that found `acquired` below the limit in force at that point |
| `ConcurrencyGate.DrainsTowardsLimit` | src/marianne/daemon/concurrency.py:91-100 | after a lowering, and as long as the limit is not changed again, the count never exceeds the larger of the limit and the count at the time: it can only drain |
| `ConcurrencyGate.SettlingFillsTheGate` | src/marianne/daemon/concurrency.py:68-80 | whatever the order in which woken calls run, exactly as many as there are free slots are admitted, the others park again, no holder loses its slot |
| `ConcurrencyGate.WaiterLeavesNoTrace` | src/marianne/daemon/concurrency.py:68-80 | a call that is cancelled before it is admitted can be deleted from the run: limit, holders and the other waiters are the same without it |
| `ConcurrencyGate.GateIsExact` | src/marianne/daemon/concurrency.py:68-100 | in every run the limit is the last one accepted, a call holds a slot from an attempt that finds one free until its release, which lowers the count by one and takes no other holder, and the wake flag is set exactly if a slot was given back or the limit set since the last refusal |
| `ConcurrencyGate.WaitersAreExact` | src/marianne/daemon/concurrency.py:68-100 | a call waits exactly from a refused attempt until it is admitted or cancelled, and it is runnable if and only if a slot was given back or the limit was set since it last looked |
| `CheckpointWriter.Writer.EnqueueSnapshot` | src/marianne/daemon/checkpoint_writer.py:89-101 | never blocks; the latest snapshot is recorded even when the queue is full and no token is added |
| `CheckpointWriter.Writer.BeginWrite` | src/marianne/daemon/checkpoint_writer.py:148-161 | refused without a change when the writer is not accepting or not running; otherwise one more admission with a pending future |
| `CheckpointWriter.Writer.ResumeWrite` | src/marianne/daemon/checkpoint_writer.py:162-179 | the stop event seen first abandons a put that has not landed and cancels an unsettled future |
| `CheckpointWriter.Writer.TakeNext` | src/marianne/daemon/checkpoint_writer.py:103-123 | the consumer takes the front of the queue: an exact payload, the latest snapshot of the job, or nothing when an earlier token has already taken it |
| `CheckpointWriter.Writer.EndSave` | src/marianne/daemon/checkpoint_writer.py:122-146 | the caller of an acknowledged write gets exactly the outcome of its own save, unless its future is already settled |
| `CheckpointWriter.Writer.StopTask` | src/marianne/daemon/checkpoint_writer.py:215-220 | the consumer is cancelled only when no admission is left; a caller whose save it was doing is cancelled with it |
| `CheckpointWriter.Writer.DrainVisibleQueue` | src/marianne/daemon/checkpoint_writer.py:221-231 | the loop empties the queue, cancels every unsettled future in it, and counts every item as done |
| `AcknowledgedWrites.HeldInExactlyOnePlace` | src/marianne/daemon/checkpoint_writer.py:103-146 | in every run each unsettled acknowledged write is held by exactly one of: its admission, one position of the queue, the consumer |
| `AcknowledgedWrites.FinishStopSettlesAll` | src/marianne/daemon/checkpoint_writer.py:199-231 | when `stop` returns every caller's future is settled |
| `AcknowledgedWrites.StopStrandsNobody` | src/marianne/daemon/checkpoint_writer.py:199-231 | after `stop` has returned and until the next start, in every continuation of the run: nothing is unsettled and no caller is admitted |
| `AcknowledgedWrites.AcknowledgedMeansSaved` | src/marianne/daemon/checkpoint_writer.py:148-193 | in every run a caller returns normally only if the registry saved exactly the payload it handed in, for exactly its job |
| `AcknowledgedWrites.AcknowledgedWritesAreFifo` | src/marianne/daemon/checkpoint_writer.py:14-22 | in every run the acknowledged writes that are queued, handed over, and saved each stand in the order in which they entered the queue |
| `WriterHistory.LifecycleIsExact` | src/marianne/daemon/checkpoint_writer.py:75-223 | from the events alone: when there is a consumer task, when a stop is under way or drains, and that a write is admitted exactly if a start has taken effect and no stop was asked for since |
| `WriterHistory.CallsAreExact` | src/marianne/daemon/checkpoint_writer.py:148-193 | what each admitted call asked for, and where it stands in its `finally` protocol, are what its own events say |
| `WriterHistory.NewestIsExact` | src/marianne/daemon/checkpoint_writer.py:89-101 | the newest accepted snapshot of a job is that of its last enqueue or admitted write |
| `WriterHistory.LineIsExact` | src/marianne/daemon/checkpoint_writer.py:103-146 | queue, save in hand, calls of `save_checkpoint` and successful saves are what the events say: every landed request and every enqueue that finds room waits its turn, and exactly the saves that end well are stored |
| `WriterHistory.LatestIsExact` | src/marianne/daemon/checkpoint_writer.py:89-120 | the snapshot a token stands for is the last one enqueued since a token of the job was taken |
| `WriterHistory.CallerIsToldFirstAnswer` | src/marianne/daemon/checkpoint_writer.py:122-193 | every caller is told exactly the first thing that happened to its request: its own save succeeded or failed, or the caller or the writer gave it up |
| `WriterHistory.SaveIsReported` | src/marianne/daemon/checkpoint_writer.py:124-135 | a ticket whose own save ends before anything else was told is Saved if the save was good and Failed if not, at every later point |
| `WriterHistory.ReportedIffSaved` | src/marianne/daemon/checkpoint_writer.py:124-135 | a caller is told Saved, or Failed, if and only if its own save ended so before anything else was told |
| `CheckpointOrder.VersionsIncrease` | src/marianne/daemon/checkpoint_writer.py:14-22 | per job the versions handed to `save_checkpoint` strictly increase in every guarded run, full queues, failed saves, cancellations and restarts included |
| `CheckpointOrder.EnqueueKeepsOrderIff` | src/marianne/daemon/checkpoint_writer.py:89-101 | a newer snapshot keeps the service order of its job if and only if no acknowledged write of the job stands behind a token of the job |
| `CheckpointOrder.PutKeepsOrderIff` | src/marianne/daemon/checkpoint_writer.py:148-161 | a landing acknowledged write keeps the service order if and only if its version is newer than everything queued or handed over for the job |
| `CheckpointOrder.GuardIsExact` | src/marianne/daemon/checkpoint_writer.py:89-146 | the guard of a step, which looks only at the queue and the versions, holds if and only if the undisturbed consumer then hands the job's versions over in increasing order |
| `CheckpointOrder.DrainHandsOutTheChain` | src/marianne/daemon/checkpoint_writer.py:103-146 | the consumer left alone hands the registry, per job, exactly the chain the queue and the coalescing table stand for |
| `CheckpointOrder.CalmCallersAreGuarded` | src/marianne/daemon/checkpoint_writer.py:14-22 | callers that give the writer no snapshot of a job while an acknowledged write of that job is on its way meet the guard at every step of every run |
| `CheckpointOrder.UnfinishedCounts` | src/marianne/daemon/checkpoint_writer.py:195-197 | the join counter behind `drain` is the length of the queue plus one for a save in hand, in every run |
| `CheckpointOrder.DrainedMeansNewestStored` | src/marianne/daemon/checkpoint_writer.py:195-197 | with no full queue, no failed save and calm callers: when `drain` may return and no acknowledged write is being admitted, the last stored version of the job is the newest one given to the writer |
| `CheckpointOrder.EnqueueInsideWriteReorders` | src/marianne/daemon/checkpoint_writer.py:89-146 | enqueue 1, acknowledged 2, enqueue 3, all while the consumer is inside the save of another job: it saves 3 and then 2 |
| `CheckpointOrder.CancelledCallerReorders` | src/marianne/daemon/checkpoint_writer.py:174-193 | waiting for the acknowledged write to settle is not enough: a cancelled caller's request stays queued behind a save in progress and is saved after a newer snapshot |
| `CheckpointOrder.OverlappingWritesReorder` | src/marianne/daemon/checkpoint_writer.py:148-173 | two overlapping acknowledged writes of one job at a full queue are saved in the wrong order: when the consumer returns from its save, the younger put finds the place free before the older one, woken for it, has run |
| `McpSocketBridge.Bridge.HandleClientMessage` | src/marianne/daemon/mcp_socket_bridge.py:313-344 | `initialize` is answered by the bridge itself, the initialized notification is swallowed, a request goes up under the next bridge-wide id with one pending entry, a notification goes up unchanged |
| `McpSocketBridge.Bridge.RouteUpstreamMessage` | src/marianne/daemon/mcp_socket_bridge.py:389-410 | a message without id starts a broadcast; an id that is no integer, or not pending, is dropped; a pending id is consumed and its owner served |
| `McpSocketBridge.Bridge.ServeNotice` | src/marianne/daemon/mcp_socket_bridge.py:389-393 | the broadcast loop serves the clients of its snapshot one after another, and a failed write unregisters only that client |
| `McpSocketBridge.Bridge.EndHandler` | src/marianne/daemon/mcp_socket_bridge.py:302-307 | the client is unregistered and every pending entry of it, and no other, is removed |
| `McpSocketBridge.Bridge.SendUpstreamRequest` | src/marianne/daemon/mcp_socket_bridge.py:346-356 | the bridge's own request takes the next id with a waiting future |
| `McpSocketBridge.Bridge.SendUpstreamNotification` | src/marianne/daemon/mcp_socket_bridge.py:358-359 | the bridge's own notification waits for the wire as it is, without an id and without a pending entry |
| `McpSocketBridge.PendingIsExact` | src/marianne/daemon/mcp_socket_bridge.py:313-344 | in every run the pending table is exactly the set of requests that were given an id and neither answered nor abandoned since: no leak, no loss, no mix-up |
| `McpSocketBridge.ResponseIsExact` | src/marianne/daemon/mcp_socket_bridge.py:389-410 | an upstream message with an integer id is written to a client if and only if a client request is open under that id: to that client, under the client's own id, otherwise unchanged |
| `McpSocketBridge.EveryWriteIsExplained` | src/marianne/daemon/mcp_socket_bridge.py:279-344 | in every interleaving: each response written to a client answers one earlier open request of that client, no request is answered twice, and any other message is the initialize reply or an unchanged notification |
| `McpSocketBridge.ResponseIsWrittenAtOnce` | src/marianne/daemon/mcp_socket_bridge.py:389-410 | a response is written in the very step that routes the upstream message |
| `McpSocketBridge.NoSecondAnswer` | src/marianne/daemon/mcp_socket_bridge.py:389-410 | once a request has been answered, a response written later never carries its upstream id again: duplicates from upstream find the entry gone |
| `McpSocketBridge.GoneForGood` | src/marianne/daemon/mcp_socket_bridge.py:302-307 | after a client's handler has ended, no pending entry names that client at any later point of the run |
| `McpSocketBridge.UpstreamIdsIncrease` | src/marianne/daemon/mcp_socket_bridge.py:444-446 | along the upstream wire the ids of requests strictly increase, so none is used twice |
| `McpSocketBridge.WireCarriesWhatWasAsked` | src/marianne/daemon/mcp_socket_bridge.py:331-367 | every message on the upstream wire is some client's message, or a request or notification of the bridge itself, unchanged but for its fresh id |
| `BridgeHistory.WritesAreExact` | src/marianne/daemon/mcp_socket_bridge.py:313-422 | what the clients are sent is exactly what the events call for, key by key: a greeting for each initialize request, each response under its client's own id, each notification to each client in turn, and nothing else |
| `BridgeHistory.InitializeIsAnswered` | src/marianne/daemon/mcp_socket_bridge.py:321-330 | an initialize request is answered in the same step by one write to its client, with `jsonrpc` 2.0, the id of the request and the upstream's own result, in the framing of the client's first message; nothing goes upstream |
| `BridgeHistory.UpstreamIsExact` | src/marianne/daemon/mcp_socket_bridge.py:332-367 | every message for the upstream server waits in line and is written in its turn, with nothing changed but the number of a request, unless the handler of its client ends first |
| `BridgeHistory.EntriesAreExact` | src/marianne/daemon/mcp_socket_bridge.py:332-400 | the pending table holds exactly the requests that are neither answered nor given up, under the numbers in which they came |
| `BridgeHistory.FuturesAreExact` | src/marianne/daemon/mcp_socket_bridge.py:346-405 | the bridge's own request comes to its first answer, or to a time-out that was earlier |
| `BridgeHistory.FramingsAreExact` | src/marianne/daemon/mcp_socket_bridge.py:279-320 | a client's framing is that of its first message, for good |
| `BridgeHistory.NoticeIsExact` | src/marianne/daemon/mcp_socket_bridge.py:389-393 | which notification is being passed on, and to whom it still has to go |
| `BridgeHistory.NoticeReachesAll` | src/marianne/daemon/mcp_socket_bridge.py:389-393 | a notification is written to every client that was registered when it came, unless the bridge is still about to |
| `BridgeHistory.HandlersAreExact` | src/marianne/daemon/mcp_socket_bridge.py:279-311 | a client has a handler from its connection until that ends, and client numbers count the connections |
| `BridgeHistory.RegisteredIff` | src/marianne/daemon/mcp_socket_bridge.py:279-422 | a client is registered if and only if it has connected and since then neither its handler has ended nor a write to it has failed |
| `JsonRpcFraming.StreamReader.ReadLine` | src/marianne/daemon/mcp_socket_bridge.py:453-453 | a line up to and including its newline, the rest at the end of the stream, or the error of a line over the stream limit |
| `JsonRpcFraming.StreamReader.ReadJsonRpcMessage` | src/marianne/daemon/mcp_socket_bridge.py:449-472 | the loops over blank lines and headers read exactly what the specification function says of the remaining bytes, and consume exactly that much |
| `JsonRpcFraming.ReadNewline` | src/marianne/daemon/mcp_socket_bridge.py:470-479 | a newline-framed text is read back whole if it fits the stream limit of 64 KiB and refused otherwise |
| `JsonRpcFraming.ReadContentLength` | src/marianne/daemon/mcp_socket_bridge.py:459-478 | a text behind a printed Content-Length header is read back whole with nothing of what follows it, newlines inside it included |
| `JsonRpcFraming.ParseLength` | src/marianne/daemon/mcp_socket_bridge.py:460-478 | the decimal length survives printing, the blank, the line end and `int` |
| `JsonRpcFraming.StreamRoundTrip` | src/marianne/daemon/mcp_socket_bridge.py:449-479 | any sequence of messages printed with any mix of the two framings reads back as exactly that sequence and uses up every byte, if and only if every newline-framed text fits the stream limit |
| `JsonRpcFraming.PrintingIsInjective` | src/marianne/daemon/mcp_socket_bridge.py:475-479 | a byte stream is the print of at most one sequence of framed messages |
| `JsonRpcFraming.BlankLinesIgnored` | src/marianne/daemon/mcp_socket_bridge.py:452-457 | a blank line in front changes nothing of what is read |
| `JsonRpcFraming.OwnLimitIsDead` | src/marianne/daemon/mcp_socket_bridge.py:470-471 | the bridge's own limit of 1 MiB never decides: a line that long has already been refused by the stream |
| `JsonRpcFraming.MessageBehindHeaders` | src/marianne/daemon/mcp_socket_bridge.py:459-468 | behind a header that names a length, in any case, and any number of further headers the message is that many bytes after the empty line; a length that is no number, negative or more than there is fails |
| `JsonRpcFraming.HeadersCutOff` | src/marianne/daemon/mcp_socket_bridge.py:461-464 | a stream that ends among the headers ends without a message |
| `JsonRpcFraming.AnyOtherLineIsRead` | src/marianne/daemon/mcp_socket_bridge.py:452-472 | any line within 65536 bytes that is not blank and names no length is a message as it is |
| `JsonRpcFraming.ParseSigned` | src/marianne/daemon/mcp_socket_bridge.py:460 | a length may carry a sign and blanks on both sides, as int() takes them |
| `EventBus.Bus.PublishEvent` | src/marianne/daemon/event_bus.py:136-164 | never blocks: nothing happens while the bus is down, and a full central queue gives up its oldest event for the new one |
| `EventBus.Bus.DrainOne` | src/marianne/daemon/event_bus.py:261-311 | one event is filtered for every subscriber and enqueued, failing filters are counted, evictions happen after the walk; every subscriber ends as the one-subscriber specification says |
| `EventBus.Bus.CallbackEnded` | src/marianne/daemon/event_bus.py:323-370 | the end of a callback resets or raises the failure count; the tenth failure in a row removes exactly this subscriber |
| `EventBus.Bus.RemoveSubscriber` | src/marianne/daemon/event_bus.py:196-209 | an unknown id is reported and changes nothing; a known one leaves the table, and its worker ends unless it is in a callback, which is sent a cancellation |
| `EventBus.LateEviction` | src/marianne/daemon/event_bus.py:293-311 | collecting evictions and doing them after the loop comes to the same, for every subscriber, as evicting on the spot |
| `EventBus.RunIsLocal` | src/marianne/daemon/event_bus.py:286-337 | what one subscriber sees after a run is a function of the publish and drain schedule and its own steps alone |
| `EventBus.Isolation` | src/marianne/daemon/event_bus.py:286-337 | two runs with the same schedule and the same own steps leave a subscriber, and everything it received, the same, however slow, failing or short-lived the others are |
| `EventBus.BusInvariant` | src/marianne/daemon/event_bus.py:136-164 | in every run: both kinds of queue keep their bounds and hold the most recent undelivered events; every event is handed over, queued or counted as dropped; no worker sleeps on a non-empty queue without a wake-up; ten failures in a row remove a subscriber, and a removed one has a worker only while that is in a callback |
| `EventBus.RemovedKeepsBacklog` | src/marianne/daemon/event_bus.py:313-337 | from its removal on a subscriber sees and matches nothing new; what was handed over and what is queued stay the same sequence, so it is handed at most the queue it had, in order |
| `EventBus.RemovedIsHanded` | src/marianne/daemon/event_bus.py:319-337 | a removed subscriber is handed exactly one more event for every callback that ends without the cancellation it was sent while more is queued, and none otherwise |
| `EventBus.Bus.OfferEvent` | src/marianne/daemon/event_bus.py:294-308 | one turn of the loop of `_distribute`: a failing filter is counted, a matching event enters the bounded deque, drops the oldest one of a full deque with its count, and sets the wake-up |
| `EventBus.WorkerDiesIff` | src/marianne/daemon/event_bus.py:313-337 | a subscriber in the table has no live worker if and only if one of its callbacks ended in a CancelledError of its own |
| `EventBus.DeadWorkerDeliversNothing` | src/marianne/daemon/event_bus.py:313-337 | once its worker has ended, nothing is handed to a subscriber in any continuation of the run |
| `EventBus.CancelledCallbackStrandsSubscriber` | src/marianne/daemon/event_bus.py:323-331 | a run of six steps after which a subscriber is in the table without a worker |
| `EventBus.ReceivedInOrder` | src/marianne/daemon/event_bus.py:313-329 | what a callback is handed is an in-order subsequence of the published events its filter matches |
| `EventBus.RemovalHasACause` | src/marianne/daemon/event_bus.py:339-370 | a subscriber leaves only by request, by shutdown or when its failure count reaches ten; `FailuresAreInRow` says what that counts |
| `BusHistory.CentralIsExact` | src/marianne/daemon/event_bus.py:123-271 | what is published while the bus is up is drained in order, and only the oldest of a full queue is given up; the count of dropped events is the rest |
| `BusHistory.FailuresAreInRow` | src/marianne/daemon/event_bus.py:323-370 | the count a subscriber is judged by is the number of its failing callbacks and raising filters since its last callback that returned, read off the events, and it is in the table accordingly |
| `BusHistory.RemovedForFailuresIff` | src/marianne/daemon/event_bus.py:339-370 | a step other than a request or a shutdown removes a subscriber if and only if ten failures stand in a row with no success in between |
| `BusHistory.HandedIsExact` | src/marianne/daemon/event_bus.py:286-337 | queue, delivered events and the event in the callback are exactly what the events call for: everything that matches is queued, only the oldest of a full queue is lost, and a worker goes on with the next one unless it is done with |
| `BusHistory.WakeupsAreExact` | src/marianne/daemon/event_bus.py:308-319 | a wake-up is pending exactly if something has matched since the worker last looked |
| `BusHistory.WorkersAreStarted` | src/marianne/daemon/event_bus.py:123-134 | a subscriber in the table has no worker yet exactly as long as the bus has not been up since it subscribed |
| `Fleet.BuildTables` | src/marianne/daemon/fleet.py:115-124 | in-degrees count every listing of a dependency and the dependents list a group once per listing, repeated entries included; referenced groups are nodes |
| `Fleet.FinishLayer` | src/marianne/daemon/fleet.py:133-138 | after a layer each in-degree is the number of dependency listings not yet placed, and the next layer is exactly what has just reached zero |
| `Fleet.TopologicalSortGroups` | src/marianne/daemon/fleet.py:101-140 | ends on every dependency map; each layer is the set of all groups not placed before whose dependencies are all placed before, and the last layer leaves no such group |
| `Fleet.LayersDisjoint` | src/marianne/daemon/fleet.py:101-140 | no group is in two layers |
| `Fleet.LayerIsOneAfterDependencies` | src/marianne/daemon/fleet.py:101-140 | a group stands exactly one layer after the last of its dependencies, in the first layer if and only if it has none |
| `Fleet.PlacedIffNoCycle` | src/marianne/daemon/fleet.py:126-140 | a group, declared or only referenced, is in some layer if and only if neither it nor anything it depends on lies on a cycle |
| `Fleet.LaterGroupsAreDeclared` | src/marianne/daemon/fleet.py:301-304 | every group past the first layer is declared, so the lookup `groups[group_name]` is safe |
| `Fleet.Coordinator.WaitForDependencies` | src/marianne/daemon/fleet.py:331-362 | the first poll that decides does: yes if every score of every direct dependency has succeeded, no if not and one of them has ended otherwise; no earlier poll found either |
| `Fleet.Coordinator.ReadyGroups` | src/marianne/daemon/fleet.py:302-318 | the groups found ready, each once, and every other group of the layer had a dependency that ended otherwise |
| `Fleet.Coordinator.LaunchAll` | src/marianne/daemon/fleet.py:259-289 | all of the given groups are launched, in turn |
| `Fleet.Coordinator.SubmitLayer` | src/marianne/daemon/fleet.py:302-328 | each group of the layer is launched once, or some poll found a dependency of it ended otherwise; each launch follows a poll that found all scores of its dependencies successful; if a wait goes on for ever, nothing of the layer is launched |
| `Fleet.Coordinator.SubmitDependentLayers` | src/marianne/daemon/fleet.py:292-328 | over all later layers every group is launched unless a poll found a dependency of it ended otherwise, and none before every score of its direct dependency groups was in a success status |
| `FanOut.ValidateInputs` | src/marianne/core/fan_out.py:132-167 | accepts exactly the inputs with at least one stage, counts of at least one, and no stage out of range anywhere |
| `FanOut.DependencyTable.ExpandDependencyPair` | src/marianne/core/fan_out.py:170-215 | the five patterns together add exactly the edges between instances that the pair rule asks for, keep the others, and never list an edge twice |
| `FanOut.NumberSheets` | src/marianne/core/fan_out.py:82-102 | stages get consecutive blocks of sheet numbers that partition 1..total, and the metadata says stage, instance and width of every sheet |
| `FanOut.ExpandDependencies` | src/marianne/core/fan_out.py:104-121 | the expanded table has an edge for exactly the sheet pairs some listed stage pair connects, without repeats |
| `FanOut.ExpandFanOut` | src/marianne/core/fan_out.py:60-129 | malformed inputs are refused; otherwise the result has the total, the blocks and the expanded graph of the specification |
| `FanOut.ValidIsSane` | src/marianne/core/fan_out.py:132-167 | inputs that pass validation meet what the theorems about the expanded graph ask for |
| `FanOut.StageOf` | src/marianne/core/fan_out.py:82-102 | every sheet number up to the total lies in the block of some stage |
| `FanOut.StageUnique` | src/marianne/core/fan_out.py:82-102 | no sheet lies in the blocks of two stages |
| `FanOut.MetadataOf` | src/marianne/core/fan_out.py:91-98 | the metadata of a sheet is what its place says: its stage, its instance and the width of the stage |
| `FanOut.EdgeInTermsOfStages` | src/marianne/core/fan_out.py:170-208 | t depends on s if and only if the stage of t lists the stage of s and, for equal widths above one, the instance numbers are equal |
| `FanOut.StageDependencyCoversSheets` | src/marianne/core/fan_out.py:104-121 | if stage T depends on stage S, directly or not, every sheet of T has an ancestor in S and every sheet of S is an ancestor of some sheet of T |
| `FanOut.SheetDependencyProjects` | src/marianne/core/fan_out.py:104-121 | a sheet depends only on sheets of stages its own stage depends on |
| `FanOut.AcyclicIffStagesAre` | src/marianne/core/fan_out.py:104-121 | the sheet graph has a cycle if and only if the stage graph has one |
| `Producers.DagAncestors` | src/marianne/core/producers.py:161-172 | the worklist ends on every finite graph, cyclic or not, with exactly the transitive dependencies |
| `Producers.ForeignArtifacts` | src/marianne/core/producers.py:175-200 | exactly the paths that some other sheet owns and neither this sheet nor an ancestor does, each once, in the order in which the producers, by number, name them first |
| `Producers.MoreDependenciesFewerForeign` | src/marianne/core/producers.py:175-200 | adding dependencies never makes a path foreign |
| `Producers.UpstreamProductsAreNotForeign` | src/marianne/core/producers.py:175-200 | with the expanded graph: what the only sheet of a stage produces is foreign to no sheet of a stage that depends on it, directly or not |
| `Producers.Merge.Declare` | src/marianne/core/producers.py:130-142 | one path: a file claimed by a stronger source or already seen for the sheet changes nothing, any other gets the sheet as an owner under the one spelling of the file |
| `Producers.Merge.MergeSource` | src/marianne/core/producers.py:126-145 | one source adds as owners exactly its sheets for the files no stronger source has named, and claims every file it names |
| `Producers.Merge.MergeAll` | src/marianne/core/producers.py:123-146 | the owners of each file are exactly the sheets that the strongest source naming it declares; all list it under one spelling and none twice |
| `Mailbox.Inbox.TruncateTornTail` | src/marianne/core/mailbox.py:91-118 | whatever the file holds, the scan in blocks of 4096 bytes cuts it exactly behind its last newline and returns that size |
| `Mailbox.Inbox.Write` | src/marianne/core/mailbox.py:66-88 | a send, killed after any number of bytes of its record: the torn tail is dropped first and the id is the cursor behind what remains |
| `Mailbox.Inbox.SendMessage` | src/marianne/core/mailbox.py:66-88 | a completed send appends one whole record to the complete records |
| `Mailbox.Inbox.ReadMessages` | src/marianne/core/mailbox.py:121-146 | the loop over lines delivers what the complete lines say behind the cursor, fails at the first bad record with its line number, and ignores a torn tail |
| `Mailbox.WholeIs` | src/marianne/core/mailbox.py:91-118 | the cut is the only place with a newline or the start before it and no newline after it |
| `Mailbox.ReadIsExact` | src/marianne/core/mailbox.py:121-146 | on a sound inbox a read never fails and returns, for every cursor, exactly the stored messages with a greater id, in order |
| `Mailbox.IdsIncrease` | src/marianne/core/mailbox.py:74-77 | ids are positive and strictly increasing along the file |
| `Mailbox.RunKeepsInv` | src/marianne/core/mailbox.py:66-146 | in every run of completed sends, sends killed at any byte, and polls: the file is complete records and a newline-free tail, and the reader holds a prefix of the stored messages |
| `Mailbox.EveryMessageOnce` | src/marianne/core/mailbox.py:121-146 | after any run that ends with a poll, a reader that polls with its last seen id holds every stored message exactly once in order, all acknowledged ones among them in the order sent |
| `Mailbox.StoredIsSent` | src/marianne/core/mailbox.py:66-88 | what is stored is, message by message, what the completed sends handed in: timestamp, sender and body of each draft, to this recipient; the same for the sends that returned |
| `Mailbox.DeliveredIsSent` | src/marianne/core/mailbox.py:66-146 | after a run that ends with a poll the reader holds timestamps, senders and bodies of exactly the drafts whose record was completed, in the order of the sends |
| `Mailbox.ReadOfAnyFile` | src/marianne/core/mailbox.py:121-146 | for any file and cursor: a negative cursor is an error, the first complete line that is no message for the sheet is the error with its number, and otherwise the messages past the cursor come in the order of their lines |
| `LineAssembly.SplitAppend` | src/marianne/daemon/output_hub.py:113-117 | splitting can stop at any byte and go on with what was left over |
| `LineAssembly.NothingLost` | src/marianne/daemon/output_hub.py:113-117 | however the bytes are cut into chunks and however long the lines: the emitted pieces and the leftover are all bytes but the newlines, in order, and the leftover is at most 8192 bytes |
| `LineAssembly.AssemblyIsSplitIff` | src/marianne/daemon/output_hub.py:113-117 | the emitted lines and the leftover are those of the whole byte string if and only if no chunk ended with a partial line over the limit |
| `LineAssembly.ChunkingDoesNotMatter` | src/marianne/daemon/output_hub.py:107-117 | if no line is over the limit, any two ways of cutting the same bytes give the same lines and the same leftover |
| `OutputHub.StreamsDoNotMix` | src/marianne/daemon/output_hub.py:107-142 | for every interleaving of chunks of both streams and flushes, each stream is assembled as if it were alone |
| `OutputHub.LinesOfStream` | src/marianne/daemon/output_hub.py:107-142 | if no line of a stream is over the limit, its emitted lines and leftover are those of its whole byte string split at newlines |
| `OutputHub.BytesOfStream` | src/marianne/daemon/output_hub.py:107-142 | with any lines at all, no byte of a stream but its newlines is lost or reordered, and its leftover stays bounded |
| `OutputHub.LinesShowTheirPieces` | src/marianne/daemon/output_hub.py:121-133 | every piece is shown as one line with its cleaned text, tagged if and only if it came from stderr |
| `OutputHub.FlushEmitsRemainders` | src/marianne/daemon/output_hub.py:135-142 | what was emitted stays, and a flush adds the partial lines in the order in which their streams appeared since the last one |
| `OutputHub.RingIsLongestSuffix` | src/marianne/daemon/output_hub.py:144-150 | the ring is the longest suffix of all lines that fits the capacity, or the last line alone; retained plus dropped is everything appended |
| `OutputHub.SnapshotInPlace` | src/marianne/daemon/output_hub.py:152-157 | a snapshot with its marker read as a gap shows every retained line at its own index among all lines |
| `OutputHub.WatcherInPlace` | src/marianne/daemon/output_hub.py:80-93 | for every interleaving of offers and reads: with markers read as gaps every line that entered the queue is at its own index, and gaps, lines and the current count add up to all offers; the queue never exceeds 500 |
| `OutputHub.OfferedLineIsKept` | src/marianne/daemon/output_hub.py:80-94 | in every run an offered line is enqueued exactly if the queue of 500 has room for it and for the marker that is due, the marker as soon as there is room for it, and the count of dropped lines is what was not enqueued since |
| `OutputHub.OldestIsTaken` | src/marianne/daemon/output_hub.py:71-78 | a read takes the oldest item of the queue and changes nothing else |
| `OutputHub.OfferAllIsRun` | src/marianne/daemon/output_hub.py:180-190 | offering the lines of a chunk is offering each of them in turn |
| `OutputHub.LineRing.EvictOldest` | src/marianne/daemon/output_hub.py:147-150 | the eviction loop refines the recursive specification whose result is the longest fitting suffix |
| `OutputHub.LineRing.TakeSnapshot` | src/marianne/daemon/output_hub.py:152-157 | the items returned place every retained line at its own index among all lines shown so far |
| `OutputHub.SheetOutputBuffer.Feed` | src/marianne/daemon/output_hub.py:107-133 | the returned lines are exactly those added to the history, and the buffer is in step with the per-stream assembly |
| `OutputHub.SheetOutputBuffer.Flush` | src/marianne/daemon/output_hub.py:135-142 | every stream with a partial line is ended in the order of first appearance, and no partial line is left |
| `OutputHub.OutputSubscriber.OfferOne` | src/marianne/daemon/output_hub.py:80-93 | never blocks: the pending count is surfaced first, and a line without room is counted |
| `OutputHub.FanOut` | src/marianne/daemon/output_hub.py:214-221 | every watcher of the sheet is offered the line and every watcher of the job the tagged line, independently of each other |
| `OutputHub.Write` | src/marianne/daemon/output_hub.py:180-188 | every watcher of the sheet is offered exactly the lines the chunk added to the history, in order, and every watcher of the job the same lines with their tag |
| `SheetState.SheetRecord.RecordAttempt` | src/marianne/core/checkpoint.py:900-1030 | money and history grow with every attempt; only a failure that is not a rate limit uses up retry budget |
| `SheetState.SheetRecord.AdvanceFallback` | src/marianne/core/checkpoint.py:1058-1113 | moves to the next instrument with its own model and a fresh budget, or reports that the chain is used up and changes nothing |
| `SheetState.SheetRecord.ResetToRetry` | src/marianne/core/checkpoint.py:1115-1141 | the retry reset is the specified step: primary instrument, whole budget, no switch history |
| `SheetState.SheetRecord.ResetToFlow` | src/marianne/core/checkpoint.py:1158-1188 | the flow reset is the specified step: a snapshot is taken first and kept among the last ten, the switch history stays |
| `SheetState.BudgetBound` | src/marianne/core/checkpoint.py:1034-1113 | until it starts over a sheet has at most `max_retries * (len(fallback_chain) + 1)` failures that count, with the values in force, in every run that records them only while `can_retry` holds, with charged retries, recoveries and changes of `max_retries`; if it is registered again after a failure, the largest retries and the longest chain in force since that failure count |
| `SheetState.BudgetIsReached` | src/marianne/core/checkpoint.py:1034-1113 | the bound is exact: from every new sheet some run reaches it with the retries and the chain it began with |
| `SheetState.LiveInstrument` | src/marianne/core/checkpoint.py:1058-1188 | in every run, registrations, recoveries and balanced dispatches included: at index 0 the live instrument and model are the head of the order and the configuration that is read is that of the entry last put in front; at a later index they are the fallback before the index in the chain as it is then, with that entry's model and configuration, if and only if the sheet had not ended there before a chain with another entry was written |
| `SheetState.PrimaryRunsIff` | src/marianne/daemon/baton/dispatch.py:150-209 | at index 0 the remembered primary runs if and only if nothing displaced it since it was remembered or restored: no last moving balanced dispatch that chose another entry, and no recovery of a sheet that had ended elsewhere |
| `SheetState.PrimaryRunsWithoutBalance` | src/marianne/core/checkpoint.py:1143-1156 | a sheet that does not ask for `balance` runs its remembered primary whenever it is at index 0, unless it was recovered after it had ended |
| `SheetState.OwnConfigIff` | src/marianne/daemon/baton/dispatch.py:160-165 | in every run, at index 0 the entry that runs is the entry whose configuration is read if and only if the last step that decided either decided both alike: a reset if it restored the entry last put in front, a rewriting of an ended sheet if its primary is what the sheet ended on, a registration or a balanced dispatch always |
| `SheetState.ResetKeepsAuthoredIff` | src/marianne/core/checkpoint.py:1115-1188 | in every run without a separate remembering: after a reset position 0 is the authored entry with its own configuration if and only if the configuration last put in front is the authored one |
| `SheetState.ResetKeepsOrderIff` | src/marianne/core/checkpoint.py:1115-1188 | a reset keeps the order of the chain if and only if the live instrument has the name of the remembered primary |
| `SheetState.BalanceReorders` | src/marianne/daemon/baton/dispatch.py:150-209 | the chosen entry moves to the front, the displaced primary and the other entries keep their order, and each entry keeps its own configuration |
| `SheetState.BalanceKeepsEntries` | src/marianne/daemon/baton/dispatch.py:150-209 | balancing is a permutation of the entries |
| `SheetState.BalanceTwiceReturns` | src/marianne/daemon/baton/dispatch.py:150-209 | a second balanced dispatch onto the first fallback puts the displaced primary back in front |
| `SheetState.ResetLosesBalancedEntry` | src/marianne/core/checkpoint.py:1115-1188 | for every balanced sheet: either reset puts the remembered primary back over the rotated chain, with the configuration of the chosen entry; the chosen name occurs once less and the primary's once more, and the order stays as balanced if and only if the two names are equal |
| `SheetState.BalanceDisplacesPrimary` | src/marianne/daemon/baton/dispatch.py:150-209 | the run of a sheet with one fallback that shows both |
| `SheetState.SheetRecord.BalanceChain` | src/marianne/daemon/baton/dispatch.py:150-209 | the loop that lists the chain and the rewriting of it are the specified step, behind the guard of the dispatcher |
| `SheetState.SheetRecord.RegisterSheet` | src/marianne/daemon/baton/adapter.py:967-979 | chain and retries of the score are written; its primary becomes live and remembered unless the sheet has ended |
| `SheetState.SheetRecord.RecoverSheet` | src/marianne/daemon/baton/adapter.py:1822-1863 | the same for a recovered sheet, whose primary is always remembered, with the attempts its checkpoint carries; one that has not ended is back at index 0 without a switch history, one that has ended keeps its identity, index and history |
| `SheetState.CostIsConserved` | src/marianne/core/checkpoint.py:900-909 | the cumulative cost is the sum over all attempts of the run, across retries, fallbacks, both resets and recoveries, with the bills of outdated attempts |
| `SheetState.SheetRecord.AddStaleCost` | src/marianne/daemon/baton/core.py:1877-1893 | a result from before the last flow reset changes nothing but the cost |
| `SheetState.SheetRecord.ChargeRetry` | src/marianne/daemon/baton/core.py:2189-2192 | an execution below the completion gate uses up a retry |
| `SheetState.HistoriesAreRecent` | src/marianne/core/checkpoint.py:1158-1172 | trimming after each append leaves exactly the last 50 attempts of the run and the last ten snapshots taken before flow resets; the kept switches are the last ones since the last retry reset or recovery of a sheet that had not ended |
| `SheetState.SwitchBoundBreaksIff` | src/marianne/daemon/baton/dispatch.py:198-205 | a step breaks the bound of 50 switches if and only if it is a balanced dispatch that moves the sheet and finds 50 of them |
| `SheetState.SwitchesGrowUnbounded` | src/marianne/daemon/baton/dispatch.py:198-205 | a sheet that waits for its first attempt can record any number of balanced switches |
| `SheetState.ResetIsFresh` | src/marianne/core/checkpoint.py:1115-1188 | after either reset the sheet is pending, on its remembered primary, with the budget of a new sheet |
| `SheetState.SnapshotsAreNumbered` | src/marianne/core/checkpoint.py:1158-1174 | the snapshots carry consecutive epochs and the sheet's own epoch is the next one |
| `SheetHistory.BudgetIsExact` | src/marianne/core/checkpoint.py:900-1188 | in every run status, retries, position and spent retries are what the events say: what is spent is the failed attempts that were not rate limited, and the charges, since the last advance or start-over, with what a recovery carried in |
| `SheetHistory.AttemptCosts` | src/marianne/core/checkpoint.py:1028-1036 | an attempt costs one retry if it failed and was not rate limited, and none otherwise |
| `SheetHistory.TriedIsExact` | src/marianne/core/checkpoint.py:1058-1141 | for each instrument left behind since the sheet started over, the failures spent on it |
| `SheetHistory.FallbackRuns` | src/marianne/core/checkpoint.py:1058-1113 | in every run, on a fallback: the live name is that entry of the chain and the live model that of its configuration, none if it has none, unless the sheet is stranded |
| `SheetHistory.PrimaryRuns` | src/marianne/daemon/baton/adapter.py:967-979 | registration and recovery write chain and configurations as they are, and put the score's primary in front unless the sheet has ended |
| `SheetHistory.ResetRuns` | src/marianne/core/checkpoint.py:1115-1188 | either reset makes name and model of the remembered primary live again, also as the model shown, leaves the instrument if none is remembered, and never the chain |
| `SheetHistory.BalanceChangesIff` | src/marianne/daemon/baton/dispatch.py:359-365 | a balanced dispatch changes a sheet if and only if it asks for balance, is on its primary, has made no attempt and an entry behind the first is chosen |
| `SheetHistory.BalanceRotates` | src/marianne/daemon/baton/dispatch.py:193-205 | the chosen fallback becomes live, the displaced primary becomes the first fallback, and the others keep their places |
| `SheetHistory.BalanceRotatesConfigs` | src/marianne/daemon/baton/dispatch.py:168-197 | each entry takes its own configuration along, the displaced primary that read for it or its model, missing ones are empty |
| `SheetHistory.AttemptIsRecorded` | src/marianne/core/checkpoint.py:900-1030 | every attempt adds one record, with its success, the model shown at the time and the instrument its result names or else the live one |
| `SheetHistory.SwitchIsRecorded` | src/marianne/core/checkpoint.py:1058-1113 | every advance or balanced dispatch that changes something adds one record from the instrument that ran to the one that runs now, with its reason |
| `SheetHistory.SnapshotsAreExact` | src/marianne/core/checkpoint.py:1158-1188 | the snapshots are exactly those of the flow resets: cause, epoch, and the status and the cost at that point of the run |
| `JobProgress.Checkpoint.GetNextSheet` | src/marianne/core/checkpoint.py:1741-1763 | the loop finds the interrupted sheet or the first open one behind the watermark, none for a finished job |
| `JobProgress.Checkpoint.MarkSheetCompleted` | src/marianne/core/checkpoint.py:1793-1858 | the completed sheet moves the watermark only upwards and completes the job by the counting rule |
| `JobProgress.CountingIsEnough` | src/marianne/core/checkpoint.py:1846-1854 | for sheet numbers in range, `len(sheets) >= total` with every value completed holds if and only if every one of 1..total is completed |
| `JobProgress.CompletionIsExact` | src/marianne/core/checkpoint.py:1841-1858 | one event in any order: only persisting can lower the watermark, and the job becomes complete if and only if the event completes a sheet and leaves none of 1..total uncompleted |
| `JobProgress.JobCompletesExactly` | src/marianne/core/checkpoint.py:1846-1858 | the same over every run of events in range, in any completion order, with crashes that lose events: a completion is judged on the state it meets |
| `JobProgress.WatermarkNeverFalls` | src/marianne/core/checkpoint.py:1841-1844 | in every run the watermark at any earlier point since the job was last persisted or loaded is at most the one at the end |
| `JobProgress.PersistLowersIff` | src/marianne/daemon/manager.py:1628-1634 | persisting replaces the watermark by the number of completed sheets, which lowers it if and only if it has passed a sheet that is not completed |
| `JobProgress.Checkpoint.ReconcileSheets` | src/marianne/daemon/manager.py:7138-7143 | every interrupted sheet is pending again, no other changes |
| `JobProgress.CountIsExactIff` | src/marianne/core/checkpoint.py:1846-1858 | the counting rule is exact in every run over a set of sheet numbers if and only if the set lies in 1..total or has fewer than total members |
| `JobProgress.OwnSheetsIff` | src/marianne/core/checkpoint.py:1846-1858 | for a driver that can touch all sheets of the job, the rule is exact in every run if and only if it touches no others |
| `JobProgress.ForeignSheetCompletesJob` | src/marianne/core/checkpoint.py:1846-1858 | for every total and every number out of range: completing 2..total and then that number completes the job, and sheet 1 was never touched |
| `JobProgress.NextIsFirstOpenIff` | src/marianne/core/checkpoint.py:1741-1763 | outside a crash the named sheet is the first open one of the whole job if and only if the watermark has passed no open sheet |
| `JobProgress.OutOfOrderHidesSheets` | src/marianne/core/checkpoint.py:1741-1763 | for every job and every sheet but the first: completing that sheet first leaves all before it open and unnamed |
| `JobProgress.SequentialRunMissesNothing` | src/marianne/core/checkpoint.py:1741-1956 | in every sequential run with failures, skips, recoveries, persisted counts and crashes after which the job is loaded as it was at any earlier point, all sheets up to the watermark are completed or skipped, and the named sheet is the least one that is neither, none if there is none |
| `JobProgress.SheetsAreExact` | src/marianne/core/checkpoint.py:1765-1956 | in every run with crashes the status of a sheet is what the last event about it made of it, and pending again if a recovery found it in progress |
| `JobProgress.PositionIsExact` | src/marianne/core/checkpoint.py:1765-1956 | the current sheet is the last one started until one ends, and the watermark the largest number completed since it was last counted |
| `JobProgress.JobStatusIsExact` | src/marianne/core/checkpoint.py:1765-1858 | the job runs from a start on, and is completed exactly by a completion that leaves at least as many sheets as it has, all completed |
| `JobProgress.NextSheetIs` | src/marianne/core/checkpoint.py:1741-1763 | none for a finished job, the interrupted sheet if there is one, or else the first number behind the watermark whose sheet is unknown, pending or failed |
| `RateCoordinator.LimitIsExact` | src/marianne/daemon/rate_coordinator.py:156-183 | an instrument is limited exactly until the latest end reported since its last clear, however often the tables were pruned, and never for more than 86400 seconds |
| `RateCoordinator.ActiveIsExact` | src/marianne/daemon/rate_coordinator.py:185-193 | the active limits are exactly the instruments whose latest reported end lies ahead, with what remains of it |
| `RateCoordinator.RecentIsExact` | src/marianne/daemon/rate_coordinator.py:195-204 | the recent events are exactly the hits reported in the last hour, each once, from new to old |
| `RateCoordinator.PruningIsInvisible` | src/marianne/daemon/rate_coordinator.py:247-267 | two runs that differ only in where they prune answer every query alike at every later time |
| `RateCoordinator.ResumeOnlyGrows` | src/marianne/daemon/rate_coordinator.py:121-144 | between clears the end of a limit never moves back, and the instrument stays limited until it |
| `RateCoordinator.LimitIsAsReported` | src/marianne/daemon/rate_coordinator.py:109-183 | in plain numbers: a reported wait counts as it is between 0 and 86400 seconds, a longer one as a day and one that is negative or no finite number as none, and the instrument is limited until the latest such end since its last clear |
| `RateCoordinator.RecentIsAsReported` | src/marianne/daemon/rate_coordinator.py:128-204 | the recent events are the reports of the last 3600 seconds, field by field, from new to old |
| `RateCoordinator.ClearCountIsLiveIff` | src/marianne/daemon/rate_coordinator.py:208-243 | the count a clear returns is that of the live limits it covers if and only if no stored limit it covers has run out |
| `RateCoordinator.ClearAfterPruneIsExact` | src/marianne/daemon/rate_coordinator.py:208-267 | right after a prune the count of a clear is that of the live limits |
| `RateCoordinator.ClearSeesPruning` | src/marianne/daemon/rate_coordinator.py:208-243 | two runs that differ in a prune only and return different counts |
| `RateCoordinator.RateLimitCoordinator.ReportRateLimit` | src/marianne/daemon/rate_coordinator.py:92-144 | a report is the specified step: the wait clamped to [0, 86400], a wait that is no finite number taken as 0, the end only extended, hits older than an hour dropped |
| `RateCoordinator.RateLimitCoordinator.PruneStale` | src/marianne/daemon/rate_coordinator.py:247-267 | drops exactly the hits out of the window and the limits that have run out, and returns the number of hits dropped |
| `RateCoordinator.RateLimitCoordinator.IsRateLimited` | src/marianne/daemon/rate_coordinator.py:156-183 | the answer of the query is the one the run theorems speak about |
| `Keyring.RoundRobinIsFair` | src/marianne/daemon/keyring.py:231-252 | while m keys are available, any m selections in a row return each of them exactly once and no other, from any index |
| `Keyring.CoolingOnlyIfAll` | src/marianne/daemon/keyring.py:231-252 | a cooling key is selected only when every key is cooling |
| `Keyring.CoolingKeysTakeTurns` | src/marianne/daemon/keyring.py:249-252 | with every key cooling the k-th selection is the key k places after the index, so the selections go round all keys |
| `Keyring.ReportedKeyIsSpared` | src/marianne/daemon/keyring.py:132-252 | in every run of reports and selections the selected key's reported cooldown has passed if and only if that of some key has; with none free the selection is the key at the index |
| `Keyring.ReportStep` | src/marianne/daemon/keyring.py:132-161 | a report makes that key cool down for the seconds from its time on and leaves the others; one that is out of range changes nothing |
| `Keyring.InstrumentKeys.SelectRoundRobin` | src/marianne/daemon/keyring.py:231-252 | the search loop with its modular arithmetic selects what the specification selects and leaves the index one place on |
| `Keyring.InstrumentKeys.SelectLeastRecentlyRateLimited` | src/marianne/daemon/keyring.py:200-229 | the first available key, or the first of those whose cooldown ends soonest if none is available |
| `Keyring.InstrumentKeys.ReportRateLimit` | src/marianne/daemon/keyring.py:132-161 | an index out of range is an error and changes nothing; otherwise only that key's cooldown changes |

## Left out

- Fleet.Coordinator.SubmitDependentLayers: says nothing about ever finishing, because the wait loop of the source polls for ever when a score of a dependency was rejected; the model cuts such a wait off after a number of polls and submits nothing more. Submitting the scores of a launched group is not modelled.
- Fleet.TopologicalSortGroups: group names are numbers and the order within a layer is not modelled.
- Producers.ForeignArtifacts: covers merged product maps, not the older call shape with a list of validations; expanding templates and capturable outputs into paths is not modelled, and path identity is the parameter `key`.
- OutputHub.WatcherInPlace: a marker is an item of its own kind, so a line whose text reads like a marker is not confused with one.
- OutputHub.Write: the hub's tables of buffers and watchers by job and sheet, and its catch-all for errors, are not modelled.
- SheetState.LiveInstrument: a primary is remembered, or registered for a sheet that has not ended, only at index 0, as the callers do; which entry of a chain is the least loaded and what the scheduler makes of a sheet are inputs; validation details, exit codes, time stamps and the completion and healing counters are not modelled.
- JobProgress.SequentialRunMissesNothing: a job that something else cancels or pauses, and the statuses the scheduler writes into sheets directly, are not modelled, nor are the messages and times kept per sheet.
- RateCoordinator.ActiveIsExact: the rounding to a tenth of a second is not modelled.
- McpSocketBridge.EveryWriteIsExplained: a write that fails is one step together with the unregistering that follows it, and the closing of sockets, the start and stop of the upstream process and their time limits are not modelled.
- EventBus.BusInvariant: the `closing` flag and the cancelled task are one state of the worker, subscribers are values in the table rather than shared objects, and the high-water log is not modelled.
- AcknowledgedWrites.StopStrandsNobody: two overlapping calls of `stop` are one, since the second only waits for the first.
- JsonRpcFraming.StreamRoundTrip: a stream is read as one byte string that ends at its last byte; arrival in pieces is asyncio's business.
- Mailbox.ReadIsExact: checking that sheet numbers are positive decimals, and the traffic summaries and their merge, are not modelled.
- Keyring.RoundRobinIsFair: one instrument at a time; reading a key from disk is not modelled.
- Python's set and dictionary orders: wherever the source walks one, the model picks elements in an arbitrary order, except where the order of a dictionary decides what is emitted (flush).
- The observer's recorder, the judgment client, alias ordering of sheets, and schedules: not modelled, because they would add smaller invariants of kinds already shown here.
- Process lifecycle, signals, dashboards, the command line and all text processing (redaction, control sequences, UTF-8): not modelled.
