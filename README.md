# WinRT-Sockets transport, modelled in Dafny

This project models the packet transport of WinRT-Sockets. The transport comes in two roles that share one contract:

- A **client transport** holds one duplex TCP connection.
- A **listener transport** accepts connections and holds a registry of client transports, one per accepted connection.

Each transport has two lifecycle flags, `BeenOpened` and `BeenClosed`, and two FIFO packet queues:

- `GetPackets` drains the inbound queue.
- `SendPacket` appends to the outbound queue.
- Both are guarded by `ValidateSocket`.
- `StartAsync` is guarded by `BeenOpened` only, and `StopAsync` by `BeenClosed` only.
- Two background loops move packets between the queues and the connection. For the listener, they move packets between the queues and the registered clients.

The files:

- `protocol.dfy` (module `Protocol`) holds the shared base:
  - the error kinds and their messages;
  - the three guards;
  - the specification functions `DrainInbound` and `EnqueueOutbound`;
  - a `PacketQueue` class standing for the concurrent queue;
  - the imperative `GetPackets` (with its counted dequeue loop) and `SendPacket`.
- `client.dfy` (module `TcpClient`) holds the client:
  - a value `Client` holding the whole state of one transport;
  - the functions specifying each operation and each loop iteration;
  - the lemmas about sequences of them;
  - the class `ClientTransport`, whose methods update its fields in place and are proved equal to those functions through `View()`.
- `listener.dfy` (module `TcpListener`) holds the listener:
  - the registry as a sequence of `Client` values;
  - the foreach loops that broadcast to every client and stop every client, with first-failure propagation;
  - the aggregation pass over the registry;
  - the class `ListenerTransport`, with an invariant `Valid()` that every operation keeps. The internal foreach `ApplyToClients` does not keep it by itself; `CloseConnection`, which runs it, restores it.

The socket layer is reduced to its outcomes:

- whether a connect or bind succeeded;
- which message a blocking read returned;
- the sequence of messages the send loop has written (`written`).

Three behaviours of the code that are easy to miss, and that the model follows:

- **Stopping a client that was never started.** The code cancels the loops, then fails disposing a socket that was never created. The transport therefore stays not closed (`Error.NullSocket`, lemma `StopBeforeStart`). It does not move to Closed.
- **Starting after a failed connect.** `StartAsync` never looks at `BeenClosed`. A client whose connect failed can therefore be stopped and then started again.
- **Stopping a listener.** The listener marks itself closed only after every registered client has stopped. A failing client stop leaves it not closed, and the clients after the failing one are not stopped (`ForEach`, `ForEachStopsAtFirstFailure`).

## Model

| member | source | states |
|---|---|---|
| Protocol.ValidateSocket | TransmissionTests/TransmissionTests.Shared/AbstractTransmissionProtocol.cs:57-63 | succeeds exactly when opened and not closed; a closed transport reports "closed" even if never opened; otherwise "not opened"; every error is a lifecycle error |
| Protocol.GuardMessages | TransmissionTests/TransmissionTests.Shared/AbstractTransmissionProtocol.cs:41-63 | the start guard (StartCheck) fails only when already opened, the stop guard (StopCheck) only when already closed, and each failure of these and of ValidateSocket carries the exact exception message of the source |
| Protocol.DrainInbound | TransmissionTests/TransmissionTests.Shared/AbstractTransmissionProtocol.cs:17-32 | succeeds exactly when the socket is valid; on success returns the whole inbound queue in FIFO order and leaves it empty; on failure returns the guard's error and leaves the queue untouched |
| Protocol.EnqueueOutbound | TransmissionTests/TransmissionTests.Shared/AbstractTransmissionProtocol.cs:34-39 | succeeds exactly when the socket is valid; on success the packet is appended at the tail; on failure the queue is untouched |
| Protocol.DrainTwiceYieldsEmpty | TransmissionTests/TransmissionTests.Shared/AbstractTransmissionProtocol.cs:17-32 | a second GetPackets with nothing received in between returns an empty sequence |
| Protocol.GetPackets | TransmissionTests/TransmissionTests.Shared/AbstractTransmissionProtocol.cs:17-32 | the counted TryDequeue loop returns exactly what DrainInbound specifies and leaves the queue as it says |
| Protocol.SendPacket | TransmissionTests/TransmissionTests.Shared/AbstractTransmissionProtocol.cs:34-39 | validates, then enqueues, exactly as EnqueueOutbound specifies |
| TcpClient.Connect | TransmissionTests/TransmissionTests.Shared/TcpClientTransmissionProtocol.cs:27-33 | a new host/port client is neither opened nor closed, has no socket, is not cancelled and has empty queues |
| TcpClient.Accepted | TransmissionTests/TransmissionTests.Shared/TcpClientTransmissionProtocol.cs:35-47 | a client over an accepted socket is opened at once, holds the socket, is not closed and has empty queues |
| TcpClient.Open | TransmissionTests/TransmissionTests.Shared/TcpClientTransmissionProtocol.cs:49-59 | a socket always exists afterwards; the client becomes opened exactly when the connect succeeds, otherwise ConnectFailed; nothing else changes |
| TcpClient.Close | TransmissionTests/TransmissionTests.Shared/TcpClientTransmissionProtocol.cs:61-66 | the loops are always cancelled; the client becomes closed exactly when a socket exists, otherwise NullSocket; flags and queues are otherwise kept |
| TcpClient.Start | TransmissionTests/TransmissionTests.Shared/AbstractTransmissionProtocol.cs:41-47 | fails with AlreadyStarted exactly when already opened, changing nothing; succeeds exactly when not opened and the connect succeeds; never looks at or changes the closed flag; a socket exists afterwards if it was not yet opened; the queues, the connection and the cancellation are untouched |
| TcpClient.Stop | TransmissionTests/TransmissionTests.Shared/AbstractTransmissionProtocol.cs:49-55 | fails with AlreadyStopped exactly when already closed, changing nothing; otherwise always cancels; succeeds and closes exactly when a socket exists; the opened flag, the socket, the queues and the connection are untouched |
| TcpClient.TakePackets | TransmissionTests/TransmissionTests.Shared/AbstractTransmissionProtocol.cs:17-32 | GetPackets on a client: succeeds exactly when usable, returns its whole inbound queue and empties it, touching nothing else |
| TcpClient.PutPacket | TransmissionTests/TransmissionTests.Shared/AbstractTransmissionProtocol.cs:34-39 | SendPacket on a client: succeeds exactly when usable, appends only to the outbound queue |
| TcpClient.SendLoopStep | TransmissionTests/TransmissionTests.Shared/TcpClientTransmissionProtocol.cs:118-135 | one send iteration moves at most the head of the outbound queue to the connection, and only when not cancelled; with every write succeeding, the connection followed by the queue is unchanged, so nothing is lost or reordered |
| TcpClient.ReceiveLoopStep | TransmissionTests/TransmissionTests.Shared/TcpClientTransmissionProtocol.cs:109-116 | one receive iteration appends the message read to the inbound queue unless cancelled, changing nothing else |
| TcpClient.SendAllQueuesInOrder | TransmissionTests/TransmissionTests.Shared/AbstractTransmissionProtocol.cs:34-39 | successive SendPacket calls on a usable client queue the packets in call order |
| TcpClient.SendLoopWritesInOrder | TransmissionTests/TransmissionTests.Shared/TcpClientTransmissionProtocol.cs:118-135 | n send iterations, n at most the queue length, write the first n packets to the connection in queue order and keep the rest queued in order |
| TcpClient.SendLoopIdles | TransmissionTests/TransmissionTests.Shared/TcpClientTransmissionProtocol.cs:118-126 | once cancelled, or with nothing queued, any number of send iterations changes nothing |
| TcpClient.ReceiveAllQueuesInOrder | TransmissionTests/TransmissionTests.Shared/TcpClientTransmissionProtocol.cs:109-116 | messages read are queued in the order they were read |
| TcpClient.EndToEndInOrder | TransmissionTests/TransmissionTests.Shared/TcpClientTransmissionProtocol.cs:109-135 | packets sent on one transport, flushed by its send loop and read by the peer's receive loop come out of the peer's GetPackets complete and in sending order, after whatever either side already had queued |
| TcpClient.InterleavedSendsKeepOrder | TransmissionTests/TransmissionTests.Shared/TcpClientTransmissionProtocol.cs:118-135 | for SendPacket calls and send-loop iterations interleaved in any order on a usable client, the connection followed by the outbound queue is always the starting content followed by the sent packets in call order, and nothing else changes |
| TcpClient.SendOpKeepsOrder | TransmissionTests/TransmissionTests.Shared/TcpClientTransmissionProtocol.cs:118-135 | one SendPacket or one send-loop iteration on a usable client appends what it sends to the connection followed by the outbound queue, and changes nothing else |
| TcpClient.AcceptedCannotStart | TransmissionTests/TransmissionTests.Shared/TcpClientTransmissionProtocol.cs:35-47 | a client built over an accepted socket rejects StartAsync with AlreadyStarted and is unchanged |
| TcpClient.StopBeforeStart | TransmissionTests/TransmissionTests.Shared/TcpClientTransmissionProtocol.cs:61-66 | a host/port client rejects the queue operations as not opened; stopping it before starting cancels it and fails with NullSocket, leaving it not closed; a later start succeeds but its send loop never runs |
| TcpClient.StoppedRejectsQueueOperations | TransmissionTests/TransmissionTests.Shared/AbstractTransmissionProtocol.cs:57-63 | after a successful stop, GetPackets and SendPacket fail with ConnectionClosed and change nothing |
| TcpClient.LifecycleIsSingleShot | TransmissionTests/TransmissionTests.Shared/AbstractTransmissionProtocol.cs:41-55 | under any sequence of operations and loop steps no flag is lowered again, so once started every start fails and once stopped every stop fails |
| TcpClient.ClientTransport.constructor | TransmissionTests/TransmissionTests.Shared/TcpClientTransmissionProtocol.cs:27-33 | the object's state is Connect(host, port), with two distinct fresh queues |
| TcpClient.ClientTransport.FromSocket | TransmissionTests/TransmissionTests.Shared/TcpClientTransmissionProtocol.cs:35-47 | the object's state is Accepted(host, port), with two distinct fresh queues |
| TcpClient.ClientTransport.OpenConnection | TransmissionTests/TransmissionTests.Shared/TcpClientTransmissionProtocol.cs:49-59 | the new state and result are those of Open |
| TcpClient.ClientTransport.CloseConnection | TransmissionTests/TransmissionTests.Shared/TcpClientTransmissionProtocol.cs:61-66 | the new state and result are those of Close |
| TcpClient.ClientTransport.StartAsync | TransmissionTests/TransmissionTests.Shared/AbstractTransmissionProtocol.cs:41-47 | the new state and result are those of Start |
| TcpClient.ClientTransport.StopAsync | TransmissionTests/TransmissionTests.Shared/AbstractTransmissionProtocol.cs:49-55 | the new state and result are those of Stop |
| TcpClient.ClientTransport.GetPackets | TransmissionTests/TransmissionTests.Shared/AbstractTransmissionProtocol.cs:17-32 | the new state and result are those of TakePackets |
| TcpClient.ClientTransport.SendPacket | TransmissionTests/TransmissionTests.Shared/AbstractTransmissionProtocol.cs:34-39 | the new state and result are those of PutPacket |
| TcpClient.ClientTransport.SendStep | TransmissionTests/TransmissionTests.Shared/TcpClientTransmissionProtocol.cs:118-135 | the new state is that of SendLoopStep |
| TcpClient.ClientTransport.ReceiveStep | TransmissionTests/TransmissionTests.Shared/TcpClientTransmissionProtocol.cs:109-116 | the new state is that of ReceiveLoopStep |
| TcpListener.ForEach | TransmissionTests/TransmissionTests.Shared/TcpListenerTransmissionProtocol.cs:143-149 | a foreach over the registry keeps the registry's size |
| TcpListener.ForEachSucceedsOnEveryClient | TransmissionTests/TransmissionTests.Shared/TcpListenerTransmissionProtocol.cs:143-149 | a foreach over the registry succeeds exactly when the action succeeds on every client, and then replaces each client by its updated self |
| TcpListener.ForEachStopsAtFirstFailure | TransmissionTests/TransmissionTests.Shared/TcpListenerTransmissionProtocol.cs:54-57 | a failing foreach failed at some client k with k's error: all clients before k were updated and k and every client after it are untouched |
| TcpListener.BroadcastAppendsToEveryClient | TransmissionTests/TransmissionTests.Shared/TcpListenerTransmissionProtocol.cs:143-149 | broadcasting to usable clients succeeds and appends the message exactly once to each client's outbound queue, changing nothing else |
| TcpListener.StopCascadeClosesEveryClient | TransmissionTests/TransmissionTests.Shared/TcpListenerTransmissionProtocol.cs:49-60 | stopping clients that are open and hold a socket succeeds and closes and cancels each of them, changing nothing else |
| TcpListener.StopCascadeFailsOnStoppedClient | TransmissionTests/TransmissionTests.Shared/TcpListenerTransmissionProtocol.cs:54-57 | the stop cascade fails when any registered client is already stopped |
| TcpListener.InboundsKeepsEachClientInOrder | TransmissionTests/TransmissionTests.Shared/TcpListenerTransmissionProtocol.cs:138-141 | in the aggregate, each client's packets form one contiguous block in that client's own order, after those of the clients before it |
| TcpListener.InboundsLength | TransmissionTests/TransmissionTests.Shared/TcpListenerTransmissionProtocol.cs:138-141 | the aggregate holds exactly as many packets as all clients' inbound queues together |
| TcpListener.ReadMessageReachesAggregate | TransmissionTests/TransmissionTests.Shared/TcpListenerTransmissionProtocol.cs:122-141 | a message a registered client's receive loop reads appears in the aggregate right after the packets that client already held |
| TcpListener.GetMessagesFromClients | TransmissionTests/TransmissionTests.Shared/TcpListenerTransmissionProtocol.cs:138-141 | the pass fails exactly when some client is not usable; when it succeeds it yields the concatenation of all inbound queues in registry order and empties each of them, changing nothing else |
| TcpListener.ListenerTransport.constructor | TransmissionTests/TransmissionTests.Shared/TcpListenerTransmissionProtocol.cs:28-39 | a new listener is neither opened nor closed, has empty queues and an empty registry, and satisfies the invariant |
| TcpListener.ListenerTransport.OpenConnection | TransmissionTests/TransmissionTests.Shared/TcpListenerTransmissionProtocol.cs:41-47 | the listener becomes opened exactly when the bind succeeds, otherwise BindFailed; the invariant is kept |
| TcpListener.ListenerTransport.CloseConnection | TransmissionTests/TransmissionTests.Shared/TcpListenerTransmissionProtocol.cs:49-60 | cancels, stops the clients as ForEach specifies and becomes closed exactly when that succeeds; from a valid not-closed state it always succeeds; the invariant is kept |
| TcpListener.ListenerTransport.ApplyToClients | TransmissionTests/TransmissionTests.Shared/TcpListenerTransmissionProtocol.cs:143-149 | the in-place foreach loop leaves the registry and result ForEach specifies, including the early return on failure |
| TcpListener.ListenerTransport.StartAsync | TransmissionTests/TransmissionTests.Shared/AbstractTransmissionProtocol.cs:41-47 | fails with AlreadyStarted exactly when already opened; otherwise opens exactly when the bind succeeds and fails with BindFailed when it does not; the invariant is kept |
| TcpListener.ListenerTransport.StopAsync | TransmissionTests/TransmissionTests.Shared/AbstractTransmissionProtocol.cs:49-55 | fails with AlreadyStopped exactly when already closed; otherwise succeeds, stops every client and leaves the listener closed and cancelled |
| TcpListener.ListenerTransport.GetPackets | TransmissionTests/TransmissionTests.Shared/AbstractTransmissionProtocol.cs:17-32 | drains the listener's inbound queue as DrainInbound specifies |
| TcpListener.ListenerTransport.SendPacket | TransmissionTests/TransmissionTests.Shared/AbstractTransmissionProtocol.cs:34-39 | enqueues on the listener's outbound queue as EnqueueOutbound specifies |
| TcpListener.ListenerTransport.AcceptNewSocket | TransmissionTests/TransmissionTests.Shared/TcpListenerTransmissionProtocol.cs:133-136 | registers exactly one new accepted client and keeps every existing one; the invariant is kept |
| TcpListener.ListenerTransport.SetupClient | TransmissionTests/TransmissionTests.Shared/TcpListenerTransmissionProtocol.cs:151-154 | inserts one Accepted client into the registry of a listener that is not closed, changes nothing else, and keeps the invariant |
| TcpListener.ListenerTransport.SendMessageToAllClients | TransmissionTests/TransmissionTests.Shared/TcpListenerTransmissionProtocol.cs:143-149 | on an open listener it succeeds, and the registry is that of ForEach with SendPacket; the invariant is kept |
| TcpListener.ListenerTransport.ClientReceiveStep | TransmissionTests/TransmissionTests.Shared/TcpClientTransmissionProtocol.cs:109-116 | one iteration of registered client j's own receive loop changes client j as ReceiveLoopStep says and no other client; the invariant is kept |
| TcpListener.ListenerTransport.ClientSendStep | TransmissionTests/TransmissionTests.Shared/TcpClientTransmissionProtocol.cs:118-135 | one iteration of registered client j's own send loop changes client j as SendLoopStep says and no other client; the invariant is kept |
| TcpListener.ListenerTransport.SendStep | TransmissionTests/TransmissionTests.Shared/TcpListenerTransmissionProtocol.cs:104-120 | unless cancelled or idle, dequeues the head of the outbound queue and appends it to every registered client's outbound queue; the invariant is kept |
| TcpListener.ListenerTransport.ReceiveStep | TransmissionTests/TransmissionTests.Shared/TcpListenerTransmissionProtocol.cs:122-131 | unless cancelled, moves every client's inbound packets, in registry order and each client's own order, to the end of the listener's inbound queue, emptying the clients' queues; the invariant is kept |

## Left out

- The socket layer is not part of this model: host-name resolution, socket options, connect and bind, length-prefixed string framing, reading and writing streams. Connect and bind are a boolean outcome, a read is its message, and a write appends to `written`.
- Concurrency is not modelled: the threads, the tasks and the timing of cancellation. Each loop iteration is one atomic step. A cancel that lands in the middle of an iteration, and a receive loop blocked in a read when it is cancelled, are not captured.
- Protocol.GetPackets: the count snapshot under a concurrent enqueue is not modelled. The model is sequential, so every counted TryDequeue succeeds and the whole queue is returned.
- The 10 ms delay of an idle send loop is not modelled; idling is a step that changes nothing.
- TcpClient.SendLoopStep: a write that throws is not modelled. In the code such a write loses the packet it just dequeued and ends the send loop, so later SendPacket calls queue packets that nothing sends. In the model every write succeeds, so the conservation of `written + outbound`, and InterleavedSendsKeepOrder built on it, hold only for a connection whose writes never fail.
- A read that throws ends the client's receive loop. This is not modelled.
- The registry is a ConcurrentBag, whose enumeration order is not specified. New clients go in at a caller-chosen position (`at`), and enumeration follows sequence order.
- TcpListener.GetMessagesFromClients: when some client is not usable, the contract states only that the pass fails. It does not state which packets were collected before the failure. In the sequential model this case cannot arise, because the listener invariant keeps every registered client usable while the listener is open.
- Accepting is modelled only while the listener is bound and not closed. A connection that arrives during or after a stop is not modelled.
- A listener start retried after a failed bind registers the connection handler a second time. This is not modelled, so every accepted connection is registered once.
- The `RecieveThread` and `SendThread` task handles are not modelled.
- The UI page that drives the transport is not part of this model.
