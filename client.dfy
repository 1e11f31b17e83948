/** The client transport (TcpClientTransmissionProtocol): one duplex
    connection, its lifecycle flags, its two packet queues, and one step of
    each of its background loops. The connection is abstracted to the
    sequence of messages the send loop has written to it. */
module TcpClient {
  import opened Protocol

  /** The state of one client transport. `hasSocket` says whether a socket
      object exists (it is created by the accepting constructor or by the open
      procedure); `cancelled` is the state of its cancellation source;
      `written` is what its send loop has written to the connection. */
  datatype Client = Client(
    host: string,
    port: string,
    hasSocket: bool,
    beenOpened: bool,
    beenClosed: bool,
    cancelled: bool,
    inbound: seq<string>,
    outbound: seq<string>,
    written: seq<string>)
  {
    /** GetPackets and SendPacket are accepted. */
    predicate Usable() { beenOpened && !beenClosed }
  }

  /** The host/port constructor: nothing is connected yet. */
  function Connect(host: string, port: string): (c: Client)
    ensures !c.beenOpened && !c.beenClosed && !c.hasSocket && !c.cancelled
    ensures c.inbound == [] && c.outbound == [] && c.written == []
  {
    Client(host, port, false, false, false, false, [], [], [])
  }

  /** The constructor over an already connected socket, used by the listener:
      the loops are started at once and the transport counts as opened. */
  function Accepted(host: string, port: string): (c: Client)
    ensures c.beenOpened && !c.beenClosed && c.hasSocket && !c.cancelled
    ensures c.inbound == [] && c.outbound == [] && c.written == []
  {
    Client(host, port, true, true, false, false, [], [], [])
  }

  /** OpenConnectionAsync: a new socket is created, then connected; the
      transport counts as opened only once the connection is made. */
  function Open(c: Client, connected: bool): (r: Step<Client, ()>)
    ensures r.result.Ok? <==> connected
    ensures !connected ==> r.result == Err(ConnectFailed)
    ensures r.next.hasSocket
    ensures r.next.beenOpened <==> c.beenOpened || connected
    ensures r.next.beenClosed == c.beenClosed && r.next.cancelled == c.cancelled
    ensures r.next.inbound == c.inbound && r.next.outbound == c.outbound && r.next.written == c.written
  {
    var withSocket := c.(hasSocket := true);
    if connected then Step(Ok(()), withSocket.(beenOpened := true))
    else Step(Err(ConnectFailed), withSocket)
  }

  /** CloseConnectionAsync: cancel the loops, dispose the socket, mark closed.
      Disposing fails when no socket was ever created, after the cancellation. */
  function Close(c: Client): (r: Step<Client, ()>)
    ensures r.result.Ok? <==> c.hasSocket
    ensures !c.hasSocket ==> r.result == Err(NullSocket)
    ensures r.next.cancelled
    ensures r.next.beenClosed <==> c.beenClosed || c.hasSocket
    ensures r.next.beenOpened == c.beenOpened && r.next.hasSocket == c.hasSocket
    ensures r.next.inbound == c.inbound && r.next.outbound == c.outbound && r.next.written == c.written
  {
    var cancelled := c.(cancelled := true);
    if !c.hasSocket then Step(Err(NullSocket), cancelled)
    else Step(Ok(()), cancelled.(beenClosed := true))
  }

  /** StartAsync on a client. */
  function Start(c: Client, connected: bool): (r: Step<Client, ()>)
    ensures r.result == Err(AlreadyStarted) <==> c.beenOpened
    ensures c.beenOpened ==> r.next == c
    ensures r.result.Ok? <==> !c.beenOpened && connected
    ensures r.next.beenOpened <==> c.beenOpened || connected
    ensures r.next.beenClosed == c.beenClosed && r.next.inbound == c.inbound && r.next.outbound == c.outbound
    ensures r.next.written == c.written && r.next.cancelled == c.cancelled
    ensures r.next.hasSocket == (c.hasSocket || !c.beenOpened)
    ensures r.next.host == c.host && r.next.port == c.port
  {
    match StartCheck(c.beenOpened)
    case Some(e) => Step(Err(e), c)
    case None => Open(c, connected)
  }

  /** StopAsync on a client. */
  function Stop(c: Client): (r: Step<Client, ()>)
    ensures r.result == Err(AlreadyStopped) <==> c.beenClosed
    ensures c.beenClosed ==> r.next == c
    ensures !c.beenClosed ==> r.next.cancelled
    ensures r.result.Ok? <==> !c.beenClosed && c.hasSocket
    ensures r.next.beenClosed <==> c.beenClosed || c.hasSocket
    ensures r.next.beenOpened == c.beenOpened && r.next.inbound == c.inbound && r.next.outbound == c.outbound
    ensures r.next.written == c.written && r.next.hasSocket == c.hasSocket
    ensures r.next.host == c.host && r.next.port == c.port
  {
    match StopCheck(c.beenClosed)
    case Some(e) => Step(Err(e), c)
    case None => Close(c)
  }

  /** GetPackets on a client. */
  function TakePackets(c: Client): (r: Step<Client, seq<string>>)
    ensures r.result.Ok? <==> c.Usable()
    ensures r.result.Err? ==> r.next == c && Some(r.result.error) == ValidateSocket(c.beenOpened, c.beenClosed)
    ensures r.result.Ok? ==> r.result.value == c.inbound && r.next == c.(inbound := [])
  {
    var drained := DrainInbound(c.beenOpened, c.beenClosed, c.inbound);
    Step(drained.result, c.(inbound := drained.next))
  }

  /** SendPacket on a client. */
  function PutPacket(c: Client, packet: string): (r: Step<Client, ()>)
    ensures r.result.Ok? <==> c.Usable()
    ensures r.result.Err? ==> r.next == c && Some(r.result.error) == ValidateSocket(c.beenOpened, c.beenClosed)
    ensures r.result.Ok? ==> r.next == c.(outbound := c.outbound + [packet])
  {
    var queued := EnqueueOutbound(c.beenOpened, c.beenClosed, c.outbound, packet);
    Step(queued.result, c.(outbound := queued.next))
  }

  /** One iteration of KeepSendingMessages. The loop exists once the client is
      opened; it ends once cancellation is observed; with an empty queue it only
      waits. Otherwise the head of the queue is written to the connection. */
  function SendLoopStep(c: Client): (r: Client)
    requires c.beenOpened
    ensures r.written + r.outbound == c.written + c.outbound
    ensures |r.outbound| == if c.cancelled || c.outbound == [] then |c.outbound| else |c.outbound| - 1
    ensures r.(outbound := c.outbound, written := c.written) == c
  {
    if c.cancelled || c.outbound == [] then c
    else c.(outbound := c.outbound[1..], written := c.written + [c.outbound[0]])
  }

  /** One iteration of KeepReceivingMessages, given the message the blocking
      read returned. */
  function ReceiveLoopStep(c: Client, message: string): (r: Client)
    requires c.beenOpened
    ensures c.cancelled ==> r == c
    ensures !c.cancelled ==> r.inbound == c.inbound + [message]
    ensures r.(inbound := c.inbound) == c
  {
    if c.cancelled then c else c.(inbound := c.inbound + [message])
  }

  /** SendPacket called once for each packet, in order. */
  function SendAll(c: Client, packets: seq<string>): Client
    decreases |packets|
  {
    if packets == [] then c else SendAll(PutPacket(c, packets[0]).next, packets[1..])
  }

  /** n iterations of the send loop. */
  function SendLoopSteps(c: Client, n: nat): Client
    requires c.beenOpened
    decreases n
  {
    if n == 0 then c else SendLoopSteps(SendLoopStep(c), n - 1)
  }

  /** The receive loop reading each message in turn. */
  function ReceiveAll(c: Client, messages: seq<string>): Client
    requires c.beenOpened
    decreases |messages|
  {
    if messages == [] then c else ReceiveAll(ReceiveLoopStep(c, messages[0]), messages[1..])
  }

  /** Packets handed to SendPacket are queued in the order given. */
  lemma {:induction false} SendAllQueuesInOrder(c: Client, packets: seq<string>)
    requires c.Usable()
    ensures SendAll(c, packets) == c.(outbound := c.outbound + packets)
    decreases |packets|
  {
    if packets != [] {
      var c1 := PutPacket(c, packets[0]).next;
      SendAllQueuesInOrder(c1, packets[1..]);
      assert c.outbound + [packets[0]] + packets[1..] == c.outbound + packets;
    }
  }

  /** The send loop writes the queue to the connection head first: after n
      iterations, n no more than the queue length, the first n packets are on
      the wire in queue order and the rest are still queued in order. */
  lemma {:induction false} SendLoopWritesInOrder(c: Client, n: nat)
    requires c.beenOpened && !c.cancelled && n <= |c.outbound|
    ensures SendLoopSteps(c, n) == c.(outbound := c.outbound[n..], written := c.written + c.outbound[..n])
    decreases n
  {
    if n == 0 {
      assert c.outbound[0..] == c.outbound && c.written + c.outbound[..0] == c.written;
    } else {
      var head, tail := c.outbound[0], c.outbound[1..];
      var c1 := c.(outbound := tail, written := c.written + [head]);
      assert SendLoopStep(c) == c1;
      SendLoopWritesInOrder(c1, n - 1);
      assert tail[n - 1..] == c.outbound[n..];
      assert c1.written + tail[..n - 1] == c.written + c.outbound[..n] by {
        assert c.outbound[..n] == [head] + tail[..n - 1];
      }
    }
  }

  /** Once cancelled, or with nothing queued, the send loop changes nothing
      however many iterations it runs. */
  lemma {:induction false} SendLoopIdles(c: Client, n: nat)
    requires c.beenOpened && (c.cancelled || c.outbound == [])
    ensures SendLoopSteps(c, n) == c
    decreases n
  {
    if n > 0 {
      assert SendLoopStep(c) == c;
      SendLoopIdles(c, n - 1);
    }
  }

  /** Received messages are queued in the order they were read. */
  lemma {:induction false} ReceiveAllQueuesInOrder(c: Client, messages: seq<string>)
    requires c.beenOpened && !c.cancelled
    ensures ReceiveAll(c, messages) == c.(inbound := c.inbound + messages)
    decreases |messages|
  {
    if messages != [] {
      ReceiveAllQueuesInOrder(ReceiveLoopStep(c, messages[0]), messages[1..]);
      assert c.inbound + [messages[0]] + messages[1..] == c.inbound + messages;
    }
  }

  /** Packets sent on one connected transport, written by its send loop and
      read by the peer's receive loop, come out of the peer's GetPackets
      complete and in the order they were sent, after whatever either side
      already had queued. */
  lemma EndToEndInOrder(sender: Client, receiver: Client, packets: seq<string>)
    requires sender.Usable() && !sender.cancelled
    requires receiver.Usable() && !receiver.cancelled
    ensures SendAll(sender, packets) == sender.(outbound := sender.outbound + packets)
    ensures var queued := sender.outbound + packets;
            var flushed := SendLoopSteps(sender.(outbound := queued), |queued|);
            flushed.outbound == [] && flushed.written == sender.written + queued &&
            TakePackets(ReceiveAll(receiver, flushed.written[|sender.written|..])).result == Ok(receiver.inbound + queued)
  {
    SendAllQueuesInOrder(sender, packets);
    var queued := sender.outbound + packets;
    var start := sender.(outbound := queued);
    SendLoopWritesInOrder(start, |queued|);
    var flushed := SendLoopSteps(start, |queued|);
    assert queued[|queued|..] == [] && queued[..|queued|] == queued;
    assert flushed.written[|sender.written|..] == queued;
    ReceiveAllQueuesInOrder(receiver, queued);
  }

  /** A client built over an accepted socket cannot be started again. */
  lemma AcceptedCannotStart(host: string, port: string, connected: bool)
    ensures Start(Accepted(host, port), connected) == Step(Err(AlreadyStarted), Accepted(host, port))
  {
  }

  /** A client built from host and port rejects the queue operations as not
      opened, leaving it as it was. Stopping it before it was ever started
      cancels its loops and then fails, since it has no socket to dispose: it
      stays not closed, can still be started, but its loops never run. */
  lemma StopBeforeStart(host: string, port: string, packet: string)
    ensures TakePackets(Connect(host, port)) == Step(Err(NotOpened), Connect(host, port))
    ensures PutPacket(Connect(host, port), packet) == Step(Err(NotOpened), Connect(host, port))
    ensures Stop(Connect(host, port)) == Step(Err(NullSocket), Connect(host, port).(cancelled := true))
    ensures var started := Start(Stop(Connect(host, port)).next, true);
            started.result == Ok(()) && started.next.Usable() && started.next.cancelled &&
            SendLoopStep(PutPacket(started.next, packet).next) == PutPacket(started.next, packet).next
  {
  }

  /** Once a stop has succeeded, the queue operations report the closed connection. */
  lemma StoppedRejectsQueueOperations(c: Client, packet: string)
    requires Stop(c).result.Ok?
    ensures TakePackets(Stop(c).next) == Step(Err(ConnectionClosed), Stop(c).next)
    ensures PutPacket(Stop(c).next, packet) == Step(Err(ConnectionClosed), Stop(c).next)
  {
  }

  /** The operations a caller or a background loop can apply to a client. */
  datatype Op =
    | StartOp(connected: bool)
    | StopOp
    | GetPacketsOp
    | SendPacketOp(packet: string)
    | SendLoopOp
    | ReceiveLoopOp(message: string)

  /** One operation; a loop step on a transport that was never opened is no
      operation, since its loops do not exist. */
  function Apply(c: Client, op: Op): Client
  {
    match op
    case StartOp(connected) => Start(c, connected).next
    case StopOp => Stop(c).next
    case GetPacketsOp => TakePackets(c).next
    case SendPacketOp(packet) => PutPacket(c, packet).next
    case SendLoopOp => if c.beenOpened then SendLoopStep(c) else c
    case ReceiveLoopOp(message) => if c.beenOpened then ReceiveLoopStep(c, message) else c
  }

  function Run(c: Client, ops: seq<Op>): Client
    decreases |ops|
  {
    if ops == [] then c else Run(Apply(c, ops[0]), ops[1..])
  }

  /** No flag is ever lowered again. */
  ghost predicate NoFlagLowered(c: Client, d: Client)
  {
    (c.beenOpened ==> d.beenOpened) && (c.beenClosed ==> d.beenClosed) &&
    (c.cancelled ==> d.cancelled) && (c.hasSocket ==> d.hasSocket)
  }

  /** Whatever happens to a client, its lifecycle only moves forward: once
      started, every later StartAsync fails, and once stopped, every later
      StopAsync fails. */
  lemma {:induction false} LifecycleIsSingleShot(c: Client, ops: seq<Op>, connected: bool)
    ensures NoFlagLowered(c, Run(c, ops))
    ensures c.beenOpened ==> Start(Run(c, ops), connected).result == Err(AlreadyStarted)
    ensures c.beenClosed ==> Stop(Run(c, ops)).result == Err(AlreadyStopped)
    decreases |ops|
  {
    if ops != [] {
      var c1 := Apply(c, ops[0]);
      assert NoFlagLowered(c, c1);
      LifecycleIsSingleShot(c1, ops[1..], connected);
    }
  }

  /** Every operation is a SendPacket or a send-loop iteration. */
  predicate SendsOnly(ops: seq<Op>)
  {
    forall i :: 0 <= i < |ops| ==> ops[i].SendPacketOp? || ops[i].SendLoopOp?
  }

  /** The packet an operation hands to SendPacket, if any. */
  function SentBy(op: Op): seq<string>
  {
    if op.SendPacketOp? then [op.packet] else []
  }

  /** The packets handed to SendPacket, in call order. */
  function Sent(ops: seq<Op>): seq<string>
    decreases |ops|
  {
    if ops == [] then [] else SentBy(ops[0]) + Sent(ops[1..])
  }

  /** One SendPacket or send-loop iteration on a usable client appends what it
      sends to the connection followed by the outbound queue, and changes
      nothing else. */
  lemma SendOpKeepsOrder(c: Client, op: Op)
    requires c.Usable() && (op.SendPacketOp? || op.SendLoopOp?)
    ensures Apply(c, op).written + Apply(c, op).outbound == c.written + c.outbound + SentBy(op)
    ensures Apply(c, op).(outbound := c.outbound, written := c.written) == c
  {
  }

  /** SendPacket calls and send-loop iterations interleaved in any order: the
      connection followed by the outbound queue always holds exactly what was
      there before followed by the packets sent, in call order, so the send
      loop puts packets on the wire in SendPacket order. Nothing but the
      outbound queue and the connection changes. */
  lemma {:induction false} InterleavedSendsKeepOrder(c: Client, ops: seq<Op>)
    requires c.Usable() && SendsOnly(ops)
    ensures Run(c, ops).written + Run(c, ops).outbound == c.written + c.outbound + Sent(ops)
    ensures Run(c, ops).(outbound := c.outbound, written := c.written) == c
    decreases |ops|
  {
    if ops != [] {
      var c1 := Apply(c, ops[0]);
      var rest := ops[1..];
      SendOpKeepsOrder(c, ops[0]);
      assert SendsOnly(rest) by {
        forall i | 0 <= i < |rest|
          ensures rest[i].SendPacketOp? || rest[i].SendLoopOp?
        {
          assert rest[i] == ops[i + 1];
        }
      }
      var d := Run(c1, rest);
      assert Run(c, ops) == d;
      assert c1.Usable();
      InterleavedSendsKeepOrder(c1, rest);
      assert d.written + d.outbound == c.written + c.outbound + Sent(ops) by {
        assert Sent(ops) == SentBy(ops[0]) + Sent(rest);
        assert c.written + c.outbound + SentBy(ops[0]) + Sent(rest) == c.written + c.outbound + Sent(ops);
      }
      assert d.(outbound := c.outbound, written := c.written) == c by {
        assert d.(outbound := c1.outbound, written := c1.written) == c1;
      }
    }
  }

  /** The client transport object; its methods update the fields in place and
      are specified by the functions above through View(). */
  class ClientTransport {
    const host: string
    const port: string
    var hasSocket: bool
    var beenOpened: bool
    var beenClosed: bool
    var cancelled: bool
    const received: PacketQueue
    const toSend: PacketQueue
    var written: seq<string>

    ghost predicate Valid()
      reads this
    {
      received != toSend
    }

    function View(): Client
      reads this, received, toSend
    {
      Client(host, port, hasSocket, beenOpened, beenClosed, cancelled, received.items, toSend.items, written)
    }

    constructor (host: string, port: string)
      ensures Valid() && fresh(received) && fresh(toSend)
      ensures View() == Connect(host, port)
    {
      this.host := host;
      this.port := port;
      hasSocket, beenOpened, beenClosed, cancelled := false, false, false, false;
      received := new PacketQueue();
      toSend := new PacketQueue();
      written := [];
    }

    constructor FromSocket(remoteHost: string, remotePort: string)
      ensures Valid() && fresh(received) && fresh(toSend)
      ensures View() == Accepted(remoteHost, remotePort)
    {
      host := remoteHost;
      port := remotePort;
      hasSocket := true;
      received := new PacketQueue();
      toSend := new PacketQueue();
      written := [];
      beenClosed, cancelled := false, false;
      beenOpened := true;
    }

    method OpenConnection(connected: bool) returns (r: Result<()>)
      modifies this
      ensures Step(r, View()) == Open(old(View()), connected)
    {
      hasSocket := true;
      if !connected {
        return Err(ConnectFailed);
      }
      beenOpened := true;
      r := Ok(());
    }

    method CloseConnection() returns (r: Result<()>)
      modifies this
      ensures Step(r, View()) == Close(old(View()))
    {
      cancelled := true;
      if !hasSocket {
        return Err(NullSocket);
      }
      beenClosed := true;
      r := Ok(());
    }

    method StartAsync(connected: bool) returns (r: Result<()>)
      modifies this
      ensures Step(r, View()) == Start(old(View()), connected)
    {
      var check := StartCheck(beenOpened);
      if check.Some? {
        return Err(check.value);
      }
      r := OpenConnection(connected);
    }

    method StopAsync() returns (r: Result<()>)
      modifies this
      ensures Step(r, View()) == Stop(old(View()))
    {
      var check := StopCheck(beenClosed);
      if check.Some? {
        return Err(check.value);
      }
      r := CloseConnection();
    }

    method GetPackets() returns (r: Result<seq<string>>)
      requires Valid()
      modifies received
      ensures Step(r, View()) == TakePackets(old(View()))
    {
      r := Protocol.GetPackets(beenOpened, beenClosed, received);
    }

    method SendPacket(packet: string) returns (r: Result<()>)
      requires Valid()
      modifies toSend
      ensures Step(r, View()) == PutPacket(old(View()), packet)
    {
      r := Protocol.SendPacket(beenOpened, beenClosed, toSend, packet);
    }

    method SendStep()
      requires Valid() && beenOpened
      modifies this, toSend
      ensures View() == SendLoopStep(old(View()))
    {
      if cancelled {
        return;
      }
      if toSend.IsEmpty() {
        return;
      }
      var ok, message := toSend.TryDequeue();
      if ok {
        written := written + [message];
      }
    }

    method ReceiveStep(message: string)
      requires Valid() && beenOpened
      modifies received
      ensures View() == ReceiveLoopStep(old(View()), message)
    {
      if cancelled {
        return;
      }
      received.Enqueue(message);
    }
  }
}
