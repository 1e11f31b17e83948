/** The listener transport (TcpListenerTransmissionProtocol): a registry of
    client transports, one per accepted connection, with a broadcast loop that
    fans every outbound packet out to all of them and an aggregation loop that
    collects their inbound packets into the listener's own inbound queue.
    Registered clients are values of TcpClient.Client. */
module TcpListener {
  import opened Protocol
  import opened TcpClient

  /** What one of the listener's foreach loops does to each registered client. */
  datatype ClientAction = SendTo(message: string) | StopClient

  function Perform(action: ClientAction, c: Client): Step<Client, ()>
  {
    match action
    case SendTo(message) => PutPacket(c, message)
    case StopClient => Stop(c)
  }

  /** A foreach over the registry: the action is applied to each client in
      turn, and the first failure propagates, leaving the clients after it
      unvisited. */
  function ForEach(clients: seq<Client>, action: ClientAction): (r: Step<seq<Client>, ()>)
    ensures |r.next| == |clients|
    decreases |clients|
  {
    if clients == [] then Step(Ok(()), [])
    else
      var first := Perform(action, clients[0]);
      if first.result.Err? then Step(first.result, clients)
      else
        var rest := ForEach(clients[1..], action);
        Step(rest.result, [first.next] + rest.next)
  }

  /** The foreach succeeds exactly when the action succeeds on every client,
      and then every client is replaced by its updated self. */
  lemma {:induction false} ForEachSucceedsOnEveryClient(clients: seq<Client>, action: ClientAction)
    ensures ForEach(clients, action).result.Ok? <==>
              forall j :: 0 <= j < |clients| ==> Perform(action, clients[j]).result.Ok?
    ensures ForEach(clients, action).result.Ok? ==>
              forall j :: 0 <= j < |clients| ==> ForEach(clients, action).next[j] == Perform(action, clients[j]).next
    decreases |clients|
  {
    if clients != [] {
      var tail := clients[1..];
      ForEachSucceedsOnEveryClient(tail, action);
      assert forall j :: 1 <= j < |clients| ==> clients[j] == tail[j - 1];
    }
  }

  /** The foreach over the suffix from i, unfolded once: a failure at client i
      leaves the suffix as it is; otherwise client i is updated and the foreach
      goes on from i + 1. */
  lemma ForEachFrom(clients: seq<Client>, i: nat, action: ClientAction)
    requires i < |clients|
    ensures var first := Perform(action, clients[i]);
            first.result.Err? ==> ForEach(clients[i..], action) == Step(first.result, clients[i..])
    ensures var first := Perform(action, clients[i]);
            var rest := ForEach(clients[i + 1..], action);
            first.result.Ok? ==> ForEach(clients[i..], action) == Step(rest.result, [first.next] + rest.next)
  {
    assert clients[i..][0] == clients[i];
    assert clients[i..][1..] == clients[i + 1..];
  }

  /** When the foreach fails, it failed at some client k: every client before
      k accepted the action and was updated, k reported the error, and k and
      every client after it are untouched. */
  lemma {:induction false} ForEachStopsAtFirstFailure(clients: seq<Client>, action: ClientAction) returns (k: nat)
    requires ForEach(clients, action).result.Err?
    ensures k < |clients|
    ensures ForEach(clients, action).result == Perform(action, clients[k]).result
    ensures forall j :: 0 <= j < k ==>
              Perform(action, clients[j]).result.Ok? && ForEach(clients, action).next[j] == Perform(action, clients[j]).next
    ensures ForEach(clients, action).next[k..] == clients[k..]
    decreases |clients|
  {
    var first := Perform(action, clients[0]);
    if first.result.Err? {
      k := 0;
    } else {
      var tail := clients[1..];
      var k' := ForEachStopsAtFirstFailure(tail, action);
      k := k' + 1;
      var r := ForEach(clients, action);
      var rest := ForEach(tail, action);
      assert r.next == [first.next] + rest.next;
      forall j | 0 <= j < k
        ensures Perform(action, clients[j]).result.Ok? && r.next[j] == Perform(action, clients[j]).next
      {
        if j > 0 {
          assert clients[j] == tail[j - 1];
        }
      }
      assert r.next[k..] == rest.next[k'..];
      assert clients[k..] == tail[k'..];
    }
  }

  /** SendMessageToAllClients over a registry of clients that accept packets
      appends the message exactly once to every client's outbound queue, and
      changes nothing else. */
  lemma BroadcastAppendsToEveryClient(clients: seq<Client>, message: string)
    requires forall j :: 0 <= j < |clients| ==> clients[j].Usable()
    ensures ForEach(clients, SendTo(message)).result.Ok?
    ensures forall j :: 0 <= j < |clients| ==>
              ForEach(clients, SendTo(message)).next[j] == clients[j].(outbound := clients[j].outbound + [message])
  {
    ForEachSucceedsOnEveryClient(clients, SendTo(message));
  }

  /** The stop cascade over clients that are neither closed nor socketless
      closes and cancels every one of them and changes nothing else. */
  lemma StopCascadeClosesEveryClient(clients: seq<Client>)
    requires forall j :: 0 <= j < |clients| ==> !clients[j].beenClosed && clients[j].hasSocket
    ensures ForEach(clients, StopClient).result.Ok?
    ensures forall j :: 0 <= j < |clients| ==>
              ForEach(clients, StopClient).next[j] == clients[j].(beenClosed := true, cancelled := true)
  {
    ForEachSucceedsOnEveryClient(clients, StopClient);
  }

  /** The stop cascade fails as soon as one registered client is already
      stopped, with that client's error. */
  lemma StopCascadeFailsOnStoppedClient(clients: seq<Client>, k: nat)
    requires k < |clients| && clients[k].beenClosed
    ensures ForEach(clients, StopClient).result.Err?
  {
    assert Perform(StopClient, clients[k]).result.Err?;
    ForEachSucceedsOnEveryClient(clients, StopClient);
  }

  /** The concatenation of the clients' inbound queues, in registry order. */
  function Inbounds(clients: seq<Client>): seq<string>
    decreases |clients|
  {
    if clients == [] then [] else clients[0].inbound + Inbounds(clients[1..])
  }

  /** Where client j's packets start in Inbounds(clients): the total length of
      the inbound queues of the clients before it. */
  function Offset(clients: seq<Client>, j: nat): nat
    requires j <= |clients|
    decreases j
  {
    if j == 0 then 0 else |clients[0].inbound| + Offset(clients[1..], j - 1)
  }

  /** Every client's packets appear in the aggregate as one contiguous block, in
      that client's own order. */
  lemma {:induction false} InboundsKeepsEachClientInOrder(clients: seq<Client>, j: nat)
    requires j < |clients|
    ensures Offset(clients, j) + |clients[j].inbound| <= |Inbounds(clients)|
    ensures Inbounds(clients)[Offset(clients, j)..Offset(clients, j) + |clients[j].inbound|] == clients[j].inbound
    decreases j
  {
    var head := clients[0].inbound;
    var tail := clients[1..];
    assert Inbounds(clients) == head + Inbounds(tail);
    if j > 0 {
      InboundsKeepsEachClientInOrder(tail, j - 1);
      assert tail[j - 1] == clients[j];
      var from := Offset(tail, j - 1);
      var to := from + |clients[j].inbound|;
      assert (head + Inbounds(tail))[|head| + from..|head| + to] == Inbounds(tail)[from..to];
    }
  }

  /** The aggregate holds exactly as many packets as the clients' inbound
      queues together: nothing is lost or duplicated. */
  lemma {:induction false} InboundsLength(clients: seq<Client>)
    ensures |Inbounds(clients)| == Offset(clients, |clients|)
    decreases |clients|
  {
    if clients != [] {
      InboundsLength(clients[1..]);
    }
  }

  /** A message that client j's receive loop reads lands in the aggregate
      right after the packets client j already held. */
  lemma ReadMessageReachesAggregate(clients: seq<Client>, j: nat, message: string)
    requires j < |clients| && clients[j].beenOpened && !clients[j].cancelled
    ensures var after := clients[j := ReceiveLoopStep(clients[j], message)];
            Offset(after, j) + |clients[j].inbound| < |Inbounds(after)| &&
            Inbounds(after)[Offset(after, j) + |clients[j].inbound|] == message
  {
    var after := clients[j := ReceiveLoopStep(clients[j], message)];
    InboundsKeepsEachClientInOrder(after, j);
    assert after[j].inbound == clients[j].inbound + [message];
  }

  /** One pass of the aggregation: the packets collected, the registry after
      the pass, and the failure that ended the pass early, if any. */
  datatype Pass = Pass(messages: seq<string>, clients: seq<Client>, failure: Option<Error>)

  /** GetMessagesFromClients, enumerated by the aggregation loop: GetPackets on
      each client in turn. The enumeration is lazy, so the packets of the
      clients before a failing one have already been collected. */
  function GetMessagesFromClients(clients: seq<Client>): (r: Pass)
    ensures |r.clients| == |clients|
    ensures r.failure.None? <==> forall j :: 0 <= j < |clients| ==> clients[j].Usable()
    ensures r.failure.None? ==> r.messages == Inbounds(clients)
    ensures r.failure.None? ==> forall j :: 0 <= j < |clients| ==> r.clients[j] == clients[j].(inbound := [])
    decreases |clients|
  {
    if clients == [] then Pass([], [], None)
    else
      var first := TakePackets(clients[0]);
      if first.result.Err? then Pass([], clients, Some(first.result.error))
      else
        var rest := GetMessagesFromClients(clients[1..]);
        Pass(first.result.value + rest.messages, [first.next] + rest.clients, rest.failure)
  }

  /** The listener transport object. */
  class ListenerTransport {
    const host: string
    const port: string
    var beenOpened: bool
    var beenClosed: bool
    var cancelled: bool
    const received: PacketQueue
    const toSend: PacketQueue
    var clients: seq<Client>

    /** The listener's loops are cancelled exactly when it is closed; every
        registered client was accepted (so it is opened and holds a socket),
        and is closed exactly when the listener is. */
    ghost predicate Valid()
      reads this
    {
      && received != toSend
      && cancelled == beenClosed
      && forall j :: 0 <= j < |clients| ==>
           clients[j].beenOpened && clients[j].hasSocket && clients[j].beenClosed == beenClosed
    }

    constructor (host: string, port: string)
      ensures Valid() && fresh(received) && fresh(toSend)
      ensures this.host == host && this.port == port
      ensures !beenOpened && !beenClosed && !cancelled
      ensures received.items == [] && toSend.items == [] && clients == []
    {
      this.host := host;
      this.port := port;
      beenOpened, beenClosed, cancelled := false, false, false;
      received := new PacketQueue();
      toSend := new PacketQueue();
      clients := [];
    }

    /** Bind the endpoint; only a successful bind starts the loops and marks the
        listener opened. */
    method OpenConnection(bound: bool) returns (r: Result<()>)
      requires Valid()
      modifies this
      ensures Valid()
      ensures r.Ok? <==> bound
      ensures !bound ==> r == Err(BindFailed)
      ensures beenOpened <==> old(beenOpened) || bound
      ensures beenClosed == old(beenClosed) && cancelled == old(cancelled) && clients == old(clients)
    {
      if !bound {
        return Err(BindFailed);
      }
      beenOpened := true;
      r := Ok(());
    }

    /** Cancel the loops, dispose the listener, stop every registered client,
        and only then mark the listener closed. */
    method CloseConnection() returns (r: Result<()>)
      requires Valid()
      modifies this
      ensures Valid()
      ensures cancelled
      ensures Step(r, clients) == ForEach(old(clients), StopClient)
      ensures beenClosed <==> old(beenClosed) || r.Ok?
      ensures !old(beenClosed) ==> r.Ok?
      ensures beenOpened == old(beenOpened)
    {
      ghost var wasClosed := beenClosed;
      if !wasClosed {
        StopCascadeClosesEveryClient(clients);
      }
      cancelled := true;
      r := ApplyToClients(StopClient);
      if r.Err? {
        ghost var k := ForEachStopsAtFirstFailure(old(clients), StopClient);
        assert clients == old(clients);
        return;
      }
      beenClosed := true;
    }

    /** The foreach loop shared by SendMessageToAllClients and CloseConnection.
        It does not keep Valid() by itself: CloseConnection runs it between
        cancelling and marking the listener closed, and restores the invariant
        afterwards. */
    method ApplyToClients(action: ClientAction) returns (r: Result<()>)
      modifies this
      ensures Step(r, clients) == ForEach(old(clients), action)
      ensures beenOpened == old(beenOpened) && beenClosed == old(beenClosed) && cancelled == old(cancelled)
    {
      var registry := clients;
      ghost var target := ForEach(registry, action);
      var visited: seq<Client> := [];
      var failure: Option<Error> := None;
      var i := 0;
      assert registry[i..] == registry && visited + target.next == target.next;
      while i < |registry| && failure.None?
        decreases |registry| - i, if failure.None? then 1 else 0
        invariant 0 <= i <= |registry| && unchanged(this)
        invariant failure.None? ==>
                    target == Step(ForEach(registry[i..], action).result, visited + ForEach(registry[i..], action).next)
        invariant failure.Some? ==> target == Step(Err(failure.value), visited + registry[i..])
      {
        var outcome := Perform(action, registry[i]);
        ForEachFrom(registry, i, action);
        if outcome.result.Err? {
          failure := Some(outcome.result.error);
        } else {
          ghost var rest := ForEach(registry[i + 1..], action);
          assert visited + [outcome.next] + rest.next == visited + ([outcome.next] + rest.next);
          visited := visited + [outcome.next];
          i := i + 1;
        }
      }
      if failure.Some? {
        clients := visited + registry[i..];
        r := Err(failure.value);
      } else {
        assert registry[i..] == [] && visited + [] == visited;
        clients := visited;
        r := Ok(());
      }
    }

    method StartAsync(bound: bool) returns (r: Result<()>)
      requires Valid()
      modifies this
      ensures Valid()
      ensures r == Err(AlreadyStarted) <==> old(beenOpened)
      ensures old(beenOpened) ==> beenOpened
      ensures !old(beenOpened) ==> (r.Ok? <==> bound) && beenOpened == bound
      ensures !old(beenOpened) && !bound ==> r == Err(BindFailed)
      ensures beenClosed == old(beenClosed) && cancelled == old(cancelled) && clients == old(clients)
    {
      var check := StartCheck(beenOpened);
      if check.Some? {
        return Err(check.value);
      }
      r := OpenConnection(bound);
    }

    method StopAsync() returns (r: Result<()>)
      requires Valid()
      modifies this
      ensures Valid()
      ensures r == Err(AlreadyStopped) <==> old(beenClosed)
      ensures old(beenClosed) ==> clients == old(clients)
      ensures !old(beenClosed) ==> r.Ok? && Step(r, clients) == ForEach(old(clients), StopClient)
      ensures beenClosed && cancelled && beenOpened == old(beenOpened)
    {
      var check := StopCheck(beenClosed);
      if check.Some? {
        return Err(check.value);
      }
      r := CloseConnection();
    }

    method GetPackets() returns (r: Result<seq<string>>)
      requires Valid()
      modifies received
      ensures Step(r, received.items) == DrainInbound(beenOpened, beenClosed, old(received.items))
    {
      r := Protocol.GetPackets(beenOpened, beenClosed, received);
    }

    method SendPacket(packet: string) returns (r: Result<()>)
      requires Valid()
      modifies toSend
      ensures Step(r, toSend.items) == EnqueueOutbound(beenOpened, beenClosed, old(toSend.items), packet)
    {
      r := Protocol.SendPacket(beenOpened, beenClosed, toSend, packet);
    }

    /** The ConnectionReceived handler. It fires only while the endpoint is
        bound and not yet disposed. The registry is a bag whose enumeration
        order is not fixed, so the new client goes at some position `at`. */
    method AcceptNewSocket(remoteHost: string, remotePort: string, at: nat)
      requires Valid() && beenOpened && !beenClosed
      requires at <= |clients|
      modifies this
      ensures Valid()
      ensures clients == old(clients)[..at] + [Accepted(remoteHost, remotePort)] + old(clients)[at..]
      ensures beenOpened == old(beenOpened) && beenClosed == old(beenClosed) && cancelled == old(cancelled)
    {
      SetupClient(remoteHost, remotePort, at);
    }

    /** Wrap the accepted connection in a client transport and register it. */
    method SetupClient(remoteHost: string, remotePort: string, at: nat)
      requires Valid() && !beenClosed
      requires at <= |clients|
      modifies this
      ensures Valid()
      ensures clients == old(clients)[..at] + [Accepted(remoteHost, remotePort)] + old(clients)[at..]
      ensures beenOpened == old(beenOpened) && beenClosed == old(beenClosed) && cancelled == old(cancelled)
    {
      clients := clients[..at] + [Accepted(remoteHost, remotePort)] + clients[at..];
    }

    /** Called by the send loop, which runs only until the listener is closed;
        every registered client then accepts the packet. */
    method SendMessageToAllClients(message: string) returns (r: Result<()>)
      requires Valid() && !beenClosed
      modifies this
      ensures Valid()
      ensures Step(r, clients) == ForEach(old(clients), SendTo(message))
      ensures r.Ok?
      ensures beenOpened == old(beenOpened) && beenClosed == old(beenClosed) && cancelled == old(cancelled)
    {
      BroadcastAppendsToEveryClient(clients, message);
      r := ApplyToClients(SendTo(message));
    }

    /** One iteration of registered client j's own receive loop, reading
        `message` from its connection. */
    method ClientReceiveStep(j: nat, message: string)
      requires Valid() && j < |clients|
      modifies this
      ensures Valid()
      ensures clients == old(clients)[j := ReceiveLoopStep(old(clients)[j], message)]
      ensures beenOpened == old(beenOpened) && beenClosed == old(beenClosed) && cancelled == old(cancelled)
    {
      clients := clients[j := ReceiveLoopStep(clients[j], message)];
    }

    /** One iteration of registered client j's own send loop. */
    method ClientSendStep(j: nat)
      requires Valid() && j < |clients|
      modifies this
      ensures Valid()
      ensures clients == old(clients)[j := SendLoopStep(old(clients)[j])]
      ensures beenOpened == old(beenOpened) && beenClosed == old(beenClosed) && cancelled == old(cancelled)
    {
      clients := clients[j := SendLoopStep(clients[j])];
    }

    /** One iteration of KeepSendingMessages: once cancelled the loop has ended;
        with an empty queue it only waits; otherwise the head of the queue is
        broadcast to every registered client. */
    method SendStep()
      requires Valid() && beenOpened
      modifies this, toSend
      ensures Valid()
      ensures cancelled || old(toSend.items) == [] ==> clients == old(clients) && toSend.items == old(toSend.items)
      ensures !cancelled && old(toSend.items) != [] ==>
                && toSend.items == old(toSend.items)[1..]
                && |clients| == |old(clients)|
                && forall j :: 0 <= j < |clients| ==>
                     clients[j] == old(clients)[j].(outbound := old(clients)[j].outbound + [old(toSend.items)[0]])
      ensures beenOpened == old(beenOpened) && beenClosed == old(beenClosed) && cancelled == old(cancelled)
    {
      if cancelled {
        return;
      }
      if toSend.IsEmpty() {
        return;
      }
      var ok, message := toSend.TryDequeue();
      if ok {
        BroadcastAppendsToEveryClient(clients, message);
        var _ := SendMessageToAllClients(message);
      }
    }

    /** One iteration of KeepRecievingMessages: once cancelled the loop has
        ended; otherwise one pass over the registry moves every client's
        inbound packets, in order, to the end of the listener's inbound queue. */
    method ReceiveStep()
      requires Valid() && beenOpened
      modifies this, received
      ensures Valid()
      ensures cancelled ==> clients == old(clients) && received.items == old(received.items)
      ensures !cancelled ==>
                && received.items == old(received.items) + Inbounds(old(clients))
                && |clients| == |old(clients)|
                && forall j :: 0 <= j < |clients| ==> clients[j] == old(clients)[j].(inbound := [])
      ensures beenOpened == old(beenOpened) && beenClosed == old(beenClosed) && cancelled == old(cancelled)
    {
      if cancelled {
        return;
      }
      var pass := GetMessagesFromClients(clients);
      for i := 0 to |pass.messages|
        invariant received.items == old(received.items) + pass.messages[..i]
        invariant unchanged(this)
      {
        received.Enqueue(pass.messages[i]);
      }
      assert pass.messages[..|pass.messages|] == pass.messages;
      clients := pass.clients;
    }
  }
}
