# Multiplexer core, modelled in Dafny

The multiplexer lets many local TCP clients share one remote connection. Every
client's uplink bytes go into one shared upload queue, and a single remote drains
that queue. Every chunk the remote sends back is appended to every client's downlink
queue. A textual control channel connects, disconnects, reports state and quits.
Tearing down the remote cancels the session's rotating cancellation source, and that
cancels every client. Pipe-like outgoing streams are wrapped so that after a failure
they drop writes until a worker reopens them.

The model keeps the sequential decisions and leaves out the threads. Every transition
is atomic and works on immutable state. Socket reads and writes are scripted by the
environment: a read returns a count and a buffer, or throws, and a write succeeds or
throws. Worker threads that the source builds but never starts become transitions that
the environment may take. They run only while their request event is set.

Modules follow the source files:

- `Io`: bytes, chunks, stream ids and the stream operations a call issues.
- `Cancellation`: CancellationTokenSource as generations. A token is cancelled exactly
  when the source that issued it has been rotated away. A linked source is cancelled
  when its parent is, or when it cancels itself.
- `Relay`: the two loop shapes that every relay shares. One forwards reads until the
  first empty read. The other drains a FIFO queue until the first failed write. Each
  shape has a reference predicate (`Relays`, `Drains`) that its function is proved
  against.
- `Client`, `Remote`: the per-connection loops and their teardown
  (Multiplexer/Client.cs, Multiplexer/Remote.cs).
- `Global`: the session state (Multiplexer/Global.cs) and its invariant `Valid`.
- `ClientServer`: accept, `upload` and `OnClose` (Multiplexer/ClientServer.cs).
- `ControlChannel`: command dispatch, the remote's start and teardown, the
  `receive` fan-out, and one step relation over every session transition
  (Multiplexer/ControlChannel.cs).
- `ReopenableStream`, `SourceManager`, `UplinkDraft`: the three reopen state machines
  (Multiplexer/ReopenableStream.cs, v2/SourceManager.cs, v3/Program.cs).

Three members are called but not defined in Multiplexer/Global.cs: `Remote`,
`RegisterRemote` and `ResetUploadQueue`. They are modelled from their call sites.
`RegisterRemote(null)` installs `Unregistered`, and for `Unregistered` the `Connected`
property reads false.

Notes on what the code does, which the model follows:

- Only a failed `Flush` puts a `ReopenableStream` into reopening. A failed write or
  read does not.
- The fan-out's `TryAdd` targets unbounded queues, so it never drops a chunk for a
  client.
- In Multiplexer/Client.cs the client downlink does not flush after each write.
- `RegisterRemote` is modelled as installing the new handle. Its callers never use a
  returned previous handle.

## Model

| member | source | states |
|---|---|---|
| Cancellation.CurrentToken | Multiplexer/Global.cs:30 | The handed-out token is cancelled exactly when the current source is, and every token of an earlier generation is cancelled |
| Cancellation.Cancel | Multiplexer/Global.cs:43-57 | A cancel on an already-cancelled source changes nothing. An effective cancel moves to a strictly later generation whose token is live, and cancels every token handed out so far. Cancelled tokens stay cancelled |
| Cancellation.Link | Multiplexer/Client.cs:53 | A linked source is cancelled under a session state exactly when its parent token is |
| Cancellation.CancelLinked | Multiplexer/Remote.cs:44-49 | Cancelling a linked source cancels it under every session state and leaves its parent token as it was (one-way) |
| Cancellation.LinkedFollowsParent | Multiplexer/Global.cs:51-53 | A source linked before an effective cancel is cancelled by it; one linked to the token current after it is live |
| Cancellation.CancelledStaysCancelled | Multiplexer/Global.cs:45-53 | A cancelled token stays cancelled through any number of later cancels |
| Relay.Take | Multiplexer/Client.cs:93 | `buffer.Take(c)` is a prefix of the buffer of length c, or the whole buffer if c exceeds it |
| Relay.Forward | Multiplexer/Client.cs:89-94 | The forwarded chunks are exactly the first `count` bytes of each read before the first empty or failing read, in read order. The ending tells end of stream from an exception, and both from a loop still waiting |
| Relay.RelaysUnique | Multiplexer/Client.cs:91-94 | The reference meaning of a forwarding loop admits exactly one outcome |
| Relay.ForwardLoop | Multiplexer/Remote.cs:76-82 | The while loop as written produces the same chunks and ending as the reference forwarding function |
| Relay.ChunkBounds | Multiplexer/Client.cs:90-93 | With reads a Stream may return, every forwarded chunk holds between 1 and 256 bytes |
| Relay.StopCutsScript | Multiplexer/Client.cs:91 | Nothing read after the first stopping read is forwarded, and the loop ends there |
| Relay.Drain | Multiplexer/Client.cs:103-109 | What is written is a prefix of the queue in FIFO order, each chunk whole. A failed write consumes its chunk and ends the loop. The rest stays queued |
| Relay.DrainHealthy | Multiplexer/Remote.cs:96-99 | If no write fails, the whole queue is written in order and nothing remains |
| Relay.DrainConserves | Multiplexer/Remote.cs:96-99 | Draining loses at most the chunk whose write failed. Every other chunk is written or still queued, in the original order |
| Client.Create | Multiplexer/Client.cs:49-55 | A new client has an empty downlink queue and is cancelled exactly when the token it was given is |
| Client.HandleUplink | Multiplexer/Client.cs:86-95 | Under cancellation the loop throws before any read. Otherwise each positive read becomes one `upload` of exactly its bytes, in order, up to the first empty read |
| Client.HandleDownlink | Multiplexer/Client.cs:100-110 | Under cancellation the loop throws before taking anything. Otherwise the downlink queue is written in FIFO order, each chunk whole |
| Client.Finish | Multiplexer/Client.cs:74-80 | After either loop ends, the client's own source is cancelled under every session state. Its parent token and queue are unchanged |
| Remote.Connected | Multiplexer/Remote.cs:52 | `Connected` is the TCP client's own connected state |
| Remote.Create | Multiplexer/Remote.cs:55-66 | A freshly constructed remote reads as connected and is cancelled exactly when the external token is |
| Remote.HandleDownlink | Multiplexer/Remote.cs:73-83 | Under cancellation the loop throws before any read. Otherwise each positive read goes to `receive` as exactly its bytes, in order, up to the first empty read |
| Remote.HandleUplink | Multiplexer/Remote.cs:90-100 | Under cancellation the loop throws before any take. Otherwise the shared queue is written in FIFO order, each chunk whole |
| Remote.Finish | Multiplexer/Remote.cs:119-134 | After either loop ends, the linked source is cancelled and the disposed connection no longer reads as connected. The external token is untouched |
| Global.Init | Multiplexer/Global.cs:32-38 | A new session has an empty queue, no clients and no connected remote, and satisfies the invariant |
| Global.RemoteConnected | Multiplexer/ClientServer.cs:50 | `glob.Remote.Connected` read without a null check: the placeholder that stands for no remote reads as not connected |
| Global.CancellationToken | Multiplexer/Global.cs:30 | The token is always that of the current source, and in a reachable session it is not cancelled |
| Global.Cancel | Multiplexer/Global.cs:43-57 | Cancel keeps the queue, the registry and the remote. It preserves the invariant, advances the generation, and leaves every registered client and the registered remote cancelled, while the new token is live |
| Global.ResetUploadQueue | Multiplexer/ControlChannel.cs:80-82 | Every pending upload is dropped and nothing else changes |
| Global.RegisterRemote | Multiplexer/ControlChannel.cs:163-180 | The remote becomes the given handle. `Connected` then reads the handle's TCP state, and reads false after unregistering |
| ClientServer.Accept | Multiplexer/ClientServer.cs:31-35 | Exactly one new id joins the registry and the other clients are untouched. The new client is linked to the token current at accept time and is live |
| ClientServer.Upload | Multiplexer/ClientServer.cs:47-54 | With a connected remote the chunk joins the tail of the queue and all earlier entries are kept. Without one the session is unchanged, so the chunk is dropped |
| ClientServer.UploadAllConnected | Multiplexer/ClientServer.cs:49-53 | With a connected remote, a client's chunks reach the queue after what was queued, in the order produced |
| ClientServer.UploadAllDisconnected | Multiplexer/ClientServer.cs:49-53 | Without a connected remote, everything a client produces is dropped |
| ClientServer.OnClose | Multiplexer/ClientServer.cs:36-41 | Exactly that client leaves the registry and the others keep their state. Removing an absent client is a no-op |
| ClientServer.ClientExit | Multiplexer/Client.cs:74-120 | When a client ends, its own source is cancelled, it is unregistered, and the session's source is untouched |
| ClientServer.DrainClient | Multiplexer/Client.cs:100-110 | A registered client's downlink loop takes from that client's queue only: under cancellation nothing is taken; otherwise the queue is written per the reference draining loop and what was not taken stays queued. Other clients, the registry and the rest of the session are unchanged, and the invariant is kept |
| ClientServer.CloseAllMembers | Multiplexer/ClientServer.cs:36-41 | After OnClose runs for a list of ids, the registry is the old one minus those ids |
| ClientServer.AcceptThenCancel | Multiplexer/ClientServer.cs:33 | A client accepted before an effective cancel is cancelled by it |
| ClientServer.CancelThenAccept | Multiplexer/ClientServer.cs:33 | A cancel that happened before an accept does not cancel the new client |
| ControlChannel.DumpStats | Multiplexer/ControlChannel.cs:132-141 | The report shows the registered remote's connected state and address (none when no remote is registered), the registered clients and the queue contents |
| ControlChannel.Dispatch | Multiplexer/ControlChannel.cs:66-125 | `connect` while connected is rejected and changes nothing. `connect` otherwise empties the queue and asks for a start with the remaining tokens. `disconnect` cancels only while connected. `info`/`stats` only report. `quit` cancels and ends the loop. Anything else changes nothing. The invariant is kept |
| ControlChannel.Run | Multiplexer/ControlChannel.cs:61-127 | Commands are handled up to and including the first `quit` and no further. With no `quit`, all are handled. One effect per handled command, and the invariant is kept |
| ControlChannel.RunSnoc | Multiplexer/ControlChannel.cs:63-69 | Commands are dispatched in order: one more command after a run that has not quit is dispatched on the session that run left, its effect is appended, and it alone decides whether the loop quits |
| ControlChannel.RunStopsAtQuit | Multiplexer/ControlChannel.cs:63-119 | Once a `quit` has been handled, commands appended later have no effect at all |
| ControlChannel.StartServer | Multiplexer/ControlChannel.cs:148-166 | Missing tokens or a failed connection leave the session exactly as it was: nothing registered, nothing cancelled. Otherwise a connected remote, linked to the current token, is registered |
| ControlChannel.RemoteTerminated | Multiplexer/ControlChannel.cs:177-186 | After teardown no remote is registered or connected, the generation has advanced, and every registered client is cancelled. The queue and the registry are unchanged |
| ControlChannel.Receive | Multiplexer/ControlChannel.cs:152-161 | Every registered client gets the chunk at the tail of its downlink queue. The upload queue, the remote and the source are untouched |
| ControlChannel.ReceiveAllFansOut | Multiplexer/ControlChannel.cs:157-160 | Every registered client receives every inbound chunk, in order, and nothing else changes |
| ControlChannel.PumpDownlink | Multiplexer/Remote.cs:73-83 | A cancelled remote forwards nothing. Otherwise its reads are forwarded as the reference forwarding loop says, every forwarded chunk reaches every registered client's downlink queue in order, the registry is unchanged and the invariant is kept |
| ControlChannel.PumpUplink | Multiplexer/Remote.cs:90-100 | The remote's uplink consumes the shared queue FIFO. The queue afterwards is what was not taken, and a cancelled remote takes nothing |
| ControlChannel.ConnectWhileConnectedRejected | Multiplexer/ControlChannel.cs:73-77 | With a connected remote, `connect` starts no remote and leaves the session unchanged |
| ControlChannel.DroppedWhileDisconnected | Multiplexer/ControlChannel.cs:78-86 | Data sent while disconnected never reaches a later remote: the queue that remote drains starts empty |
| ControlChannel.ClientOrderReachesRemote | Multiplexer/ClientServer.cs:50-53 | With a live connected remote and healthy writes, a client's chunks are written to the remote after what was already queued, in the order produced |
| ControlChannel.Apply | Multiplexer/ControlChannel.cs:63-185 | Every single step of the session (accept, a client's upload, its downlink drain or its exit, a command, remote start, remote teardown, either remote loop) keeps the invariant |
| ControlChannel.TraceKeepsValid | Multiplexer/ControlChannel.cs:63-185 | Every session reachable from a valid one by any sequence of enabled steps is valid |
| ControlChannel.ReachableTokenLive | Multiplexer/Global.cs:30 | In every session reachable from start-up, the token the session hands out is live |
| ControlChannel.RemoteOrderReachesClient | Multiplexer/ControlChannel.cs:157-160 | With a live remote, a live client and healthy writes, the client's socket receives what was already queued for it and then every chunk the remote read, in the order read |
| ControlChannel.CascadeOnRemoteLoss | Multiplexer/ControlChannel.cs:184-185 | Remote teardown cancels every client. Once each client has run OnClose the registry is empty and no remote is connected |
| ReopenableStream.Create | Multiplexer/ReopenableStream.cs:32-39 | Construction calls the opener exactly once and starts with neither `reopening` nor a request |
| ReopenableStream.Write | Multiplexer/ReopenableStream.cs:93-102 | While reopening the buffer is dropped and no stream is touched. Otherwise the write goes to the current stream. The state does not change either way, so a write error is not handled here |
| ReopenableStream.Flush | Multiplexer/ReopenableStream.cs:41-54 | Flush always reaches the current stream. A failed flush is swallowed and sets `reopening` together with the request |
| ReopenableStream.Read | Multiplexer/ReopenableStream.cs:78-81 | A read always reaches the current stream, even while reopening |
| ReopenableStream.ReopenStep | Multiplexer/ReopenableStream.cs:56-76 | The worker acts only on a request. It disposes the old stream, installs the opener's stream, and clears both the request and `reopening` |
| ReopenableStream.Run | Multiplexer/ReopenableStream.cs:32-102 | Every sequence of calls and worker steps keeps the invariant: the current stream is the latest one opened, and `reopening` equals the request |
| ReopenableStream.DroppedUntilReopened | Multiplexer/ReopenableStream.cs:93-99 | Without a worker step, which the unstarted thread never takes, a reopening stream stays reopening and no later write reaches any stream |
| ReopenableStream.ReopenRestoresWrites | Multiplexer/ReopenableStream.cs:43-74 | After a failed flush, writes are dropped. After one worker step, they go to the new stream |
| SourceManager.Create | v2/SourceManager.cs:20-29 | A new manager has no outgoing stream and a pending establish request |
| SourceManager.SendOutgoingData | v2/SourceManager.cs:70-99 | Without a stream the data is dropped. With one it is written and then flushed. On a failure the stream is disposed and forgotten and a request is raised, with nothing rethrown |
| SourceManager.EstablishStep | v2/SourceManager.cs:101-121 | The worker acts only on a request and consumes it. Success installs the new stream. A failed open raises the request again and keeps the outgoing stream |
| SourceManager.RequestsCoalesce | v2/SourceManager.cs:105-118 | Any number of raises before a successful attempt leave no request, so exactly one attempt is made |
| SourceManager.DropsWithoutStream | v2/SourceManager.cs:72-76 | With no outgoing stream and no establish step, every send is dropped and the state stays as it is |
| SourceManager.HandleIncoming | v2/SourceManager.cs:31-68 | Each stream's positive reads reach the subscriber in order, stream after stream, and nothing reaches a missing subscriber. Every stream it moves past ended by end of stream or an I/O error, and it stops moving on only at a stream that is still being read |
| SourceManager.IncomingReachesAll | v2/SourceManager.cs:47-66 | End of stream or an I/O error re-acquires the incoming stream, so when every stream ends that way the loop reaches them all |
| UplinkDraft.WriteChunk | v3/Program.cs:58-76 | A chunk taken without an uplink is discarded. Otherwise it is written and flushed. An I/O error raises the reopen request and keeps the stream |
| UplinkDraft.ReopenStep | v3/Program.cs:80-90 | Once a request is raised, the worker clears the uplink. The request is never reset |
| UplinkDraft.WriteToUplink | v3/Program.cs:54-78 | Every taken chunk gets exactly one fate (written, discarded or failed), in the order taken, and a raised request stays raised |
| UplinkDraft.GoneStaysGone | v3/Program.cs:61-65 | Once the uplink is gone, every later chunk is discarded, because nothing installs a new uplink |
| UplinkDraft.FailureClearsUplink | v3/Program.cs:72-85 | A failed write followed by a worker pass leaves no uplink |
| UplinkDraft.ReadFromClient | v3/Program.cs:94-118 | The queue keeps its old contents and gains, at its tail, the first `count` bytes of each read up to the first empty read or I/O error |

## Left out

- Threads, tasks and races are left out. This covers `Task.Run`, `Task.WhenAny`, the double-checked lock in `Global.Cancel`, the window between `ResetUploadQueue` and `RegisterRemote`, and a remote whose teardown runs after a newer remote registered. Every transition is atomic.
- Sockets, listeners, named pipes and stream openers are opaque stream ids plus scripted read and write outcomes. `Remote.Connected` is a field set at construction and cleared by disposal. A TCP client losing its connection on its own is not modelled.
- Console and JSON output (`DumpStats` serialisation, UTF-8 decoding, `Logger`) and the stdin reader `GetCommandsFromStdin` are I/O. `DumpStats` is modelled as the snapshot it prints. The remote's address is the host and port it was started with, not the socket's `RemoteEndPoint` text.
- String splitting and `int.Parse` are left out. Commands arrive tokenised, and an unparsable port counts as a refused connection in `ControlChannel.StartServer`.
- Bootstrap and argument parsing (Multiplexer/Program.cs and `Main`/`Configuration` in v3/Program.cs) are not part of this model.
- v2/ClientsManager.cs is not part of this model: both its methods only throw. v2/Client.cs is a superseded copy of Multiplexer/Client.cs.
- The `Stream` passthroughs of ReopenableStream (`Seek`, `SetLength`, `Position`, `Length`, `CanRead`, `CanSeek`, `CanWrite`) are left out.
- The stubs of v3/Program.cs (`AcceptClients`, `OpenUplink`, `OpenDownlink`, `HandleUplink`, `Run`, `Client.Receive`) are left out.
- ReopenableStream.ReopenStep: an opener that throws inside `DoReopening` is uncaught and would end the worker thread. Only a successful open is modelled.
- Only `IOException` failures are modelled for ReopenableStream.Flush (Multiplexer/ReopenableStream.cs:47), SourceManager.SendOutgoingData (v2/SourceManager.cs:84) and UplinkDraft.WriteToUplink (v3/Program.cs:72). Any other exception propagates to the caller, and in `WriteToUplink` it ends the `while (true)` loop. Neither outcome is modelled.
- SourceManager.IncomingReachesAll: the incoming loop is shown to continue only past end of stream and `IOException`. An opener that throws (`getIncomingStream`, outside any try) or a read that throws anything but `IOException` ends the task, and neither is modelled.
- SourceManager.HandleIncoming: whether a subscriber is attached is fixed for the whole run. A read that is still pending leaves the loop waiting on that stream. Exceptions thrown by the subscriber are not modelled.
- UplinkDraft.ReadFromClient: `uplinkQueue.Put` is not a method of the collection the draft declares. It is modelled as an append at the tail.
